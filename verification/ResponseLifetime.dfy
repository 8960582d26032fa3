/** Who closes a response's body and releases the runtime it holds, in api/response_streams.py.

    The cleanup task runs by itself; callers of `aclose` and of the response wait for it, shielded, so
    cancelling a caller never cancels the task. A body close or a release may raise an ordinary
    exception, which is only traced, be cancelled from inside, or raise a group that is no ordinary
    exception; the last two end the task where it is. */
module ResponseLifetime {
  import opened Options

  type CallerId = nat

  /** How an awaited call ended. `GroupRaised` is an exception group outside `Exception`. */
  datatype Ended = Fine | Failed | WasCancelled | GroupRaised(group: nat)

  /** How the cleanup task ended. */
  datatype TaskEnd = Done | TaskCancelled | TaskRaised(group: nat)

  datatype Cleanup = NoTask | Created | ClosingBody | Releasing | Finished(how: TaskEnd)

  /** A caller waiting for the cleanup: the stream's own error, and whether it was cancelled meanwhile. */
  datatype Waiter = Waiter(streamError: Option<nat>, cancelled: bool)

  datatype Result = Normal | Raised(error: nat) | Cancelled | CleanupRaised(group: nat)

  datatype State = State(
    bound: bool, cleanup: Cleanup, closes: nat, releases: nat,
    waiters: map<CallerId, Waiter>, results: map<CallerId, Result>)

  datatype Event =
    | BindRelease
    | BeginClose(caller: CallerId, streamError: Option<nat>)
    | CancelCaller(caller: CallerId)
    | TaskStarts
    | BodyClosed(how: Ended)
    | ReleaseEnded(how: Ended)
    | CallerLeaves(caller: CallerId)

  /** What `except Exception` lets go on. */
  predicate Ordinary(how: Ended) {
    how.Fine? || how.Failed?
  }

  function TaskEndOf(how: Ended): TaskEnd {
    match how
    case WasCancelled => TaskCancelled
    case GroupRaised(group) => TaskRaised(group)
    case _ => Done
  }

  predicate Enabled(s: State, e: Event) {
    match e
    case BindRelease => true
    case BeginClose(caller, _) => caller !in s.waiters && caller !in s.results
    case CancelCaller(caller) => caller in s.waiters
    case TaskStarts => s.cleanup.Created?
    case BodyClosed(_) => s.cleanup.ClosingBody?
    case ReleaseEnded(_) => s.cleanup.Releasing?
    case CallerLeaves(caller) => caller in s.waiters && s.cleanup.Finished?
  }

  /** `bind_release` refuses a second resource, and any once the cleanup was created. */
  predicate MayBind(s: State) {
    !s.bound && s.cleanup.NoTask?
  }

  /** What the wait for the task and the caller's own `finally` come to. */
  function ResultOf(w: Waiter, how: TaskEnd): Result {
    match how
    case TaskRaised(group) => CleanupRaised(group)
    case TaskCancelled => Cancelled
    case Done =>
      if w.cancelled then Cancelled
      else if w.streamError.Some? then Raised(w.streamError.value)
      else Normal
  }

  function Step(s: State, e: Event): State
    requires Enabled(s, e)
  {
    match e
    case BindRelease => if MayBind(s) then s.(bound := true) else s
    case BeginClose(caller, streamError) =>
      s.(waiters := s.waiters[caller := Waiter(streamError, false)],
         cleanup := if s.cleanup.NoTask? then Created else s.cleanup)
    case CancelCaller(caller) => s.(waiters := s.waiters[caller := s.waiters[caller].(cancelled := true)])
    case TaskStarts => s.(cleanup := ClosingBody, closes := s.closes + 1)
    case BodyClosed(how) =>
      if Ordinary(how) && s.bound then s.(cleanup := Releasing, releases := s.releases + 1)
      else s.(cleanup := Finished(TaskEndOf(how)))
    case ReleaseEnded(how) => s.(cleanup := Finished(TaskEndOf(how)))
    case CallerLeaves(caller) =>
      s.(waiters := map c | c in s.waiters && c != caller :: s.waiters[c],
         results := s.results[caller := ResultOf(s.waiters[caller], s.cleanup.how)])
  }

  function Start(): State {
    State(false, NoTask, 0, 0, map[], map[])
  }

  ghost predicate StepAt(states: seq<State>, events: seq<Event>, i: nat)
    requires i < |events| && |states| == |events| + 1
  {
    Enabled(states[i], events[i]) && states[i + 1] == Step(states[i], events[i])
  }

  ghost predicate IsRun(states: seq<State>, events: seq<Event>) {
    && |states| == |events| + 1
    && states[0] == Start()
    && forall i :: 0 <= i < |events| ==> StepAt(states, events, i)
  }

  predicate CloseIsOver(s: State) {
    s.cleanup.Releasing? || s.cleanup.Finished?
  }

  ghost predicate Inv(s: State) {
    && s.closes == (if s.cleanup.NoTask? || s.cleanup.Created? then 0 else 1)
    && (!CloseIsOver(s) ==> s.releases == 0)
    && (s.cleanup.Releasing? ==> s.bound && s.releases == 1)
    && (s.cleanup.NoTask? ==> s.waiters == map[])
    && (s.results != map[] ==> s.cleanup.Finished?)
  }

  lemma {:induction false} Reachable(states: seq<State>, events: seq<Event>, i: nat)
    requires IsRun(states, events) && i < |states|
    ensures Inv(states[i])
  {
    if i > 0 {
      Reachable(states, events, i - 1);
      assert StepAt(states, events, i - 1);
    }
  }

  /** Once the body's close is over, it ended at exactly one point of the run, and the release started
      there or never. */
  lemma {:induction false} CloseEndedOnce(states: seq<State>, events: seq<Event>, i: nat) returns (k: nat)
    requires IsRun(states, events) && i < |states|
    ensures !CloseIsOver(states[i]) ==> forall m :: 0 <= m < i ==> !events[m].BodyClosed?
    ensures CloseIsOver(states[i]) ==>
      && k < i && events[k].BodyClosed? && states[k].bound == states[i].bound
      && (forall m :: 0 <= m < i && events[m].BodyClosed? ==> m == k)
      && states[i].releases == if states[i].bound && Ordinary(events[k].how) then 1 else 0
  {
    k := 0;
    if i > 0 {
      k := CloseEndedOnce(states, events, i - 1);
      Reachable(states, events, i - 1);
      assert StepAt(states, events, i - 1);
      if events[i - 1].BodyClosed? {
        k := i - 1;
      }
    }
  }

  /** In every run the body is closed at most once and the bound resource released at most once, never
      before the body's close was attempted. Once the cleanup is over, the body's close ended at one
      point of the run, and the resource was released exactly if one was bound and that close ended
      normally or in an ordinary exception. Cancelled callers and whatever the release itself does make
      no difference. */
  lemma ReleasedExactlyOnce(states: seq<State>, events: seq<Event>, i: nat) returns (k: nat)
    requires IsRun(states, events) && i < |states|
    ensures
      var s := states[i];
      && s.closes <= 1 && s.releases <= s.closes
      && (s.releases == 1 ==> s.bound)
      && (s.cleanup.Finished? ==>
            && k < i && events[k].BodyClosed?
            && (forall m :: 0 <= m < i && events[m].BodyClosed? ==> m == k)
            && (s.releases == 1 <==> s.bound && Ordinary(events[k].how)))
  {
    Reachable(states, events, i);
    k := CloseEndedOnce(states, events, i);
  }

  /** A release starts only when the close of the body is over. */
  lemma ReleaseFollowsClose(states: seq<State>, events: seq<Event>, i: nat)
    requires IsRun(states, events) && i < |events| && states[i + 1].releases != states[i].releases
    ensures events[i].BodyClosed? && Ordinary(events[i].how) && states[i].closes == 1 && states[i].releases == 0
  {
    Reachable(states, events, i);
    assert StepAt(states, events, i);
  }

  /** The promise without the condition is false: for every way a body's close can end that is not
      ordinary, be it a cancellation from inside or an exception group, there is a run that leaves the
      bound resource unreleased for good. */
  lemma AbnormalCloseKeepsTheResource(how: Ended) returns (states: seq<State>, events: seq<Event>)
    requires !Ordinary(how)
    ensures IsRun(states, events) && BodyClosed(how) in events
    ensures
      var last := states[|states| - 1];
      last.bound && last.cleanup == Finished(TaskEndOf(how)) && last.releases == 0
  {
    events := [BindRelease, BeginClose(0, None), TaskStarts, BodyClosed(how)];
    var s1 := Step(Start(), events[0]);
    var s2 := Step(s1, events[1]);
    var s3 := Step(s2, events[2]);
    states := [Start(), s1, s2, s3, Step(s3, events[3])];
    assert StepAt(states, events, 0) && StepAt(states, events, 1) && StepAt(states, events, 2) && StepAt(states, events, 3);
    assert events[3] == BodyClosed(how);
  }

  lemma {:induction false} FinishedStays(states: seq<State>, events: seq<Event>, i: nat, j: nat)
    requires IsRun(states, events) && i <= j < |states| && states[i].cleanup.Finished?
    ensures states[j].cleanup == states[i].cleanup && states[j].bound == states[i].bound
    ensures states[j].releases == states[i].releases
    decreases j
  {
    if i < j {
      FinishedStays(states, events, i, j - 1);
      assert StepAt(states, events, j - 1);
    }
  }

  /** A caller leaves only when the cleanup is over. If the task raised a group, the caller raises that
      group, whatever else it had; otherwise it leaves with a cancellation exactly if it was cancelled or
      the task was, and else with its own stream's outcome, which no ordinary cleanup failure replaces.
      A caller that leaves with its own outcome leaves after the bound resource was released. */
  lemma CallersSeeTheirOwnOutcome(states: seq<State>, events: seq<Event>, i: nat, caller: CallerId)
    requires IsRun(states, events) && i < |events| && events[i] == CallerLeaves(caller)
    ensures
      var s, t := states[i], states[i + 1];
      && caller in s.waiters && caller in t.results && caller !in t.waiters
      && s.cleanup.Finished?
      && (forall g: nat :: t.results[caller] == CleanupRaised(g) <==> s.cleanup.how == TaskRaised(g))
      && (t.results[caller].Cancelled? <==>
            s.cleanup.how.TaskCancelled? || (s.cleanup.how.Done? && s.waiters[caller].cancelled))
      && (t.results[caller].Normal? || t.results[caller].Raised? ==>
            && (s.releases == 1 <==> s.bound)
            && t.results[caller] == match s.waiters[caller].streamError { case None => Normal case Some(e) => Raised(e) })
  {
    var k := ReleasedExactlyOnce(states, events, i);
    assert StepAt(states, events, i);
    DoneMeansOrdinary(states, events, i, k);
  }

  /** A task that ended normally met no abnormal close. */
  lemma {:induction false} DoneMeansOrdinary(states: seq<State>, events: seq<Event>, i: nat, k: nat)
    requires IsRun(states, events) && i < |states| && k < i && events[k].BodyClosed?
    ensures states[i].cleanup == Finished(Done) ==> Ordinary(events[k].how)
  {
    assert StepAt(states, events, k);
    if !Ordinary(events[k].how) {
      FinishedStays(states, events, k + 1, i);
    }
  }

  /** A resource is bound by the first request for it, before any close was asked for, and stays bound. */
  lemma BindingBinds(states: seq<State>, events: seq<Event>, i: nat)
    requires IsRun(states, events) && i < |events|
    ensures
      var s, t := states[i], states[i + 1];
      && (t.bound <==> s.bound || (events[i].BindRelease? && s.cleanup.NoTask?))
      && (events[i].BindRelease? ==> (MayBind(s) <==> !s.bound && t.bound))
  {
    assert StepAt(states, events, i);
  }

  /** How the cleanup goes: it is created by the first request for a close; then the body's close is awaited,
      and the release if there is something to release; and it ends as the last of them did. */
  lemma CleanupGoesOn(states: seq<State>, events: seq<Event>, i: nat)
    requires IsRun(states, events) && i < |events|
    ensures
      var s, e, t := states[i], events[i], states[i + 1];
      match e
      case BeginClose(_, _) => t.cleanup == if s.cleanup.NoTask? then Created else s.cleanup
      case TaskStarts => t.cleanup == ClosingBody && t.closes == s.closes + 1
      case BodyClosed(how) => if Ordinary(how) && s.bound then t.cleanup == Releasing else EndedAs(t.cleanup, how)
      case ReleaseEnded(how) => EndedAs(t.cleanup, how)
      case _ => t.cleanup == s.cleanup && t.closes == s.closes
  {
    assert StepAt(states, events, i);
  }

  ghost predicate EndedAs(cleanup: Cleanup, how: Ended) {
    && cleanup.Finished?
    && (cleanup.how.Done? <==> how.Fine? || how.Failed?)
    && (cleanup.how.TaskCancelled? <==> how.WasCancelled?)
    && (forall g: nat :: cleanup.how == TaskRaised(g) <==> how == GroupRaised(g))
  }

  /** The caller was cancelled while it waited, between `k` and `i`. */
  ghost predicate CancelledSince(events: seq<Event>, k: nat, i: nat, caller: CallerId) {
    exists m :: k < m < i && m < |events| && events[m] == CancelCaller(caller)
  }

  /** A waiting caller asked for the close once, with the outcome of its own stream, and counts as cancelled
      exactly if it was cancelled since. */
  lemma {:induction false} WaitersKeepTheirOutcome(states: seq<State>, events: seq<Event>, i: nat, caller: CallerId)
    returns (k: nat)
    requires IsRun(states, events) && i < |states| && caller in states[i].waiters
    ensures k < i && events[k] == BeginClose(caller, states[i].waiters[caller].streamError)
    ensures states[i].waiters[caller].cancelled <==> CancelledSince(events, k, i, caller)
    decreases i
  {
    assert i > 0;
    assert StepAt(states, events, i - 1);
    if events[i - 1].BeginClose? && events[i - 1].caller == caller {
      k := i - 1;
    } else {
      k := WaitersKeepTheirOutcome(states, events, i - 1, caller);
      if events[i - 1] == CancelCaller(caller) {
        assert CancelledSince(events, k, i, caller);
      } else {
        assert CancelledSince(events, k, i, caller) <==> CancelledSince(events, k, i - 1, caller);
      }
    }
  }

  /** Only the first resource is bound, and none after a close was asked for. */
  lemma {:induction false} BoundOnce(states: seq<State>, events: seq<Event>, i: nat, j: nat)
    requires IsRun(states, events) && i < j < |events| && events[i].BindRelease? && events[j].BindRelease?
    ensures states[i + 1].bound ==> !MayBind(states[j])
    ensures !MayBind(states[i]) ==> !MayBind(states[j])
    decreases j
  {
    assert StepAt(states, events, i);
    NoLaterBind(states, events, i + 1, j);
    if !MayBind(states[i]) {
      NoLaterBind(states, events, i, j);
    }
  }

  lemma {:induction false} NoLaterBind(states: seq<State>, events: seq<Event>, i: nat, j: nat)
    requires IsRun(states, events) && i <= j < |states|
    ensures !MayBind(states[i]) ==> !MayBind(states[j])
    decreases j
  {
    if i < j {
      NoLaterBind(states, events, i, j - 1);
      assert StepAt(states, events, j - 1);
    }
  }

  // ---- The objects ----

  class ManagedStreamingResponse {
    var bound: bool
    var cleanup: Cleanup
    var closes: nat
    var releases: nat
    var waiters: map<CallerId, Waiter>
    var results: map<CallerId, Result>

    constructor ()
      ensures View() == Start()
    {
      bound, cleanup, closes, releases := false, NoTask, 0, 0;
      waiters, results := map[], map[];
    }

    function View(): State
      reads this
    {
      State(bound, cleanup, closes, releases, waiters, results)
    }

    method Bind() returns (ok: bool)
      modifies this`bound
      ensures View() == Step(old(View()), BindRelease)
      ensures ok == MayBind(old(View()))
    {
      if bound {
        return false;
      }
      if !cleanup.NoTask? {
        return false;
      }
      bound := true;
      ok := true;
    }

    /** `aclose`, and the end of `__call__`, up to the wait. */
    method CloseRequested(caller: CallerId, streamError: Option<nat>)
      requires Enabled(View(), BeginClose(caller, streamError))
      modifies this`cleanup, this`waiters
      ensures View() == Step(old(View()), BeginClose(caller, streamError))
    {
      if cleanup.NoTask? {
        cleanup := Created;
      }
      waiters := waiters[caller := Waiter(streamError, false)];
    }

    method CallerCancelled(caller: CallerId)
      requires Enabled(View(), CancelCaller(caller))
      modifies this`waiters
      ensures View() == Step(old(View()), CancelCaller(caller))
    {
      waiters := waiters[caller := waiters[caller].(cancelled := true)];
    }

    method StartCleanup()
      requires Enabled(View(), TaskStarts)
      modifies this`cleanup, this`closes
      ensures View() == Step(old(View()), TaskStarts)
    {
      cleanup, closes := ClosingBody, closes + 1;
    }

    /** `_cleanup` after the body's close: only `except Exception` lets it go on to the release. */
    method AfterBodyClosed(how: Ended)
      requires Enabled(View(), BodyClosed(how))
      modifies this`cleanup, this`releases
      ensures View() == Step(old(View()), BodyClosed(how))
    {
      match how {
        case WasCancelled => cleanup := Finished(TaskCancelled);
        case GroupRaised(group) => cleanup := Finished(TaskRaised(group));
        case _ =>
          if !bound {
            cleanup := Finished(Done);
            return;
          }
          cleanup, releases := Releasing, releases + 1;
      }
    }

    method AfterRelease(how: Ended)
      requires Enabled(View(), ReleaseEnded(how))
      modifies this`cleanup
      ensures View() == Step(old(View()), ReleaseEnded(how))
    {
      match how {
        case WasCancelled => cleanup := Finished(TaskCancelled);
        case GroupRaised(group) => cleanup := Finished(TaskRaised(group));
        case _ => cleanup := Finished(Done);
      }
    }

    method Leave(caller: CallerId) returns (result: Result)
      requires Enabled(View(), CallerLeaves(caller))
      modifies this`waiters, this`results
      ensures View() == Step(old(View()), CallerLeaves(caller))
      ensures result == results[caller]
    {
      var waiter := waiters[caller];
      if cleanup.how.TaskRaised? {
        result := CleanupRaised(cleanup.how.group);
      } else if cleanup.how.TaskCancelled? || waiter.cancelled {
        result := Cancelled;
      } else if waiter.streamError.Some? {
        result := Raised(waiter.streamError.value);
      } else {
        result := Normal;
      }
      waiters := map c | c in waiters && c != caller :: waiters[c];
      results := results[caller := result];
    }
  }

  // ---- Binding a response ----

  datatype Response = Managed(response: ManagedStreamingResponse) | Unmanaged(closing: Ended) | Plain

  /** What was done with the body and the resource, in order. */
  datatype Act = CloseBody(how: Ended) | Release(how: Ended)

  datatype Binding = Returned | Refused | NotManaged | Propagated(how: Ended)

  /** What a failing release or an abnormal close raises; a failing release comes last and wins. */
  function Leaves(closing: Ended, releasing: Ended, otherwise: Binding): Binding {
    if !releasing.Fine? then Propagated(releasing)
    else if !Ordinary(closing) then Propagated(closing)
    else otherwise
  }

  /** `bind_response_lifetime`: the resource goes to a managed response, to be released with it, or is
      released right here: exactly once, whatever happens, and for an unmanaged stream after its body's
      close was awaited. It stays with the caller only when the managed response refuses it. */
  method BindLifetime(response: Response, releasing: Ended) returns (binding: Binding, acts: seq<Act>)
    modifies if response.Managed? then {response.response} else {}
    ensures
      response.Managed? ==>
        && response.response.View() == Step(old(response.response.View()), BindRelease)
        && acts == []
        && binding == if MayBind(old(response.response.View())) then Returned else Refused
    ensures response.Unmanaged? ==>
              && acts == [CloseBody(response.closing), Release(releasing)]
              && binding == Leaves(response.closing, releasing, NotManaged)
    ensures response.Plain? ==> acts == [Release(releasing)] && binding == Leaves(Fine, releasing, Returned)
  {
    acts := [];
    match response {
      case Managed(managed) =>
        var ok := managed.Bind();
        binding := if ok then Returned else Refused;
      case Unmanaged(closing) =>
        acts := acts + [CloseBody(closing)];
        binding := if Ordinary(closing) then NotManaged else Propagated(closing);
        acts := acts + [Release(releasing)];
        if !releasing.Fine? {
          binding := Propagated(releasing);
        }
      case Plain =>
        acts := acts + [Release(releasing)];
        binding := if releasing.Fine? then Returned else Propagated(releasing);
    }
  }
}
