/** What the voice registry promises over whole runs: no deadlock of handoffs, exclusive ownership. */
module VoiceRuns {
  import opened Options
  import opened VoiceSpec
  import opened VoiceInvariant

  ghost predicate StepAt(states: seq<State>, events: seq<Event>, i: nat)
    requires i < |events| && |states| == |events| + 1
  {
    Enabled(states[i], events[i]) && states[i + 1] == Step(states[i], events[i])
  }

  ghost predicate IsRun(states: seq<State>, events: seq<Event>) {
    && |states| == |events| + 1
    && states[0] == Start()
    && forall i :: 0 <= i < |events| ==> StepAt(states, events, i)
  }

  lemma {:induction false} Reachable(states: seq<State>, events: seq<Event>, i: nat)
    requires IsRun(states, events) && i < |states|
    ensures Inv(states[i])
  {
    if i == 0 {
      StartInv();
    } else {
      Reachable(states, events, i - 1);
      assert StepAt(states, events, i - 1);
      StepKeepsInv(states[i - 1], events[i - 1]);
    }
  }

  // ---- No deadlock ----

  predicate DrainsBy(s: State, a: ClaimNo, b: ClaimNo, c: CallId) {
    && c in s.calls
    && s.calls[c].source == Some(a)
    && s.calls[c].selected.Some?
    && b in s.calls[c].targets
  }

  /** The handoff of `a` is draining the handoff of `b`, which still runs. */
  ghost predicate Drains(s: State, a: ClaimNo, b: ClaimNo) {
    && b in s.entries && s.entries[b].task.Running?
    && exists c :: DrainsBy(s, a, b, c)
  }

  ghost predicate WaitPath(s: State, path: seq<ClaimNo>) {
    |path| >= 2 && forall i :: 0 <= i < |path| - 1 ==> Drains(s, path[i], path[i + 1])
  }

  lemma {:induction false} PathBeginsLater(s: State, path: seq<ClaimNo>) returns (first: CallId, last: CallId)
    requires Inv(s) && WaitPath(s, path)
    ensures DrainsBy(s, path[0], path[1], first)
    ensures DrainsBy(s, path[|path| - 2], path[|path| - 1], last)
    ensures s.calls[first].start <= s.calls[last].start
    ensures |path| > 2 ==> s.calls[first].start < s.calls[last].start
    decreases |path|
  {
    assert Drains(s, path[|path| - 2], path[|path| - 1]);
    last :| DrainsBy(s, path[|path| - 2], path[|path| - 1], last);
    if |path| == 2 {
      first := last;
    } else {
      var before;
      var shorter := path[..|path| - 1];
      assert forall i :: 0 <= i < |shorter| - 1 ==> Drains(s, path[i], path[i + 1]);
      first, before := PathBeginsLater(s, shorter);
      TargetBeginsLater(s, before, last);
    }
  }

  /** In every reachable state the cancel calls along a chain of drains began later and later. */
  lemma DrainsBeginLater(states: seq<State>, events: seq<Event>, i: nat, path: seq<ClaimNo>)
    returns (first: CallId, last: CallId)
    requires IsRun(states, events) && i < |states| && WaitPath(states[i], path)
    ensures DrainsBy(states[i], path[0], path[1], first)
    ensures DrainsBy(states[i], path[|path| - 2], path[|path| - 1], last)
    ensures states[i].calls[first].start <= states[i].calls[last].start
    ensures |path| > 2 ==> states[i].calls[first].start < states[i].calls[last].start
  {
    Reachable(states, events, i);
    first, last := PathBeginsLater(states[i], path);
  }

  /** In no reachable state do handoffs wait for each other in a circle, of whatever length. */
  lemma NoWaitCycle(states: seq<State>, events: seq<Event>, i: nat, path: seq<ClaimNo>)
    requires IsRun(states, events) && i < |states| && WaitPath(states[i], path)
    ensures path[0] != path[|path| - 1]
  {
    Reachable(states, events, i);
    var s := states[i];
    var first, last := PathBeginsLater(s, path);
    if path[0] == path[|path| - 1] {
      TargetBeginsLater(s, last, first);
    }
  }

  /** The cancel call that began last. */
  lemma {:induction false} LatestCall(s: State, calls: set<CallId>) returns (latest: CallId)
    requires calls != {} && calls <= s.calls.Keys
    ensures latest in calls && forall c | c in calls :: s.calls[c].start <= s.calls[latest].start
    decreases |calls|
  {
    latest :| latest in calls;
    if calls != {latest} {
      var other := LatestCall(s, calls - {latest});
      if s.calls[latest].start < s.calls[other].start {
        latest := other;
      }
      forall c | c in calls
        ensures s.calls[c].start <= s.calls[latest].start
      {
        assert c == latest || c in calls;
      }
    }
  }

  lemma TargetBeginsLater(s: State, c: CallId, d: CallId)
    requires Inv(s) && c in s.calls && d in s.calls
    requires s.calls[c].selected.Some? && s.calls[d].source.Some? && s.calls[d].source.value in s.calls[c].targets
    ensures s.calls[c].start < s.calls[d].start
  {
    assert OrderOk(s, c, d) && CallOk(s, c);
  }

  /** So waiting always ends somewhere: whenever one handoff drains another, some drained handoff is
      still running and is itself draining nobody. */
  lemma SomeHandoffIsFree(states: seq<State>, events: seq<Event>, i: nat, a: ClaimNo, b: ClaimNo)
    requires IsRun(states, events) && i < |states| && Drains(states[i], a, b)
    ensures exists x, y :: Drains(states[i], x, y) && forall z :: !Drains(states[i], y, z)
  {
    Reachable(states, events, i);
    var s := states[i];
    var draining := set c | c in s.calls && s.calls[c].source.Some? && s.calls[c].selected.Some?
                            && exists t :: t in s.calls[c].targets && t in s.entries && s.entries[t].task.Running?;
    var c :| DrainsBy(s, a, b, c);
    assert c in draining;
    var latest := LatestCall(s, draining);
    var y :| y in s.calls[latest].targets && y in s.entries && s.entries[y].task.Running?;
    var x := s.calls[latest].source.value;
    assert DrainsBy(s, x, y, latest);
    forall z
      ensures !Drains(s, y, z)
    {
      if Drains(s, y, z) {
        var d :| DrainsBy(s, y, z, d);
        assert d in draining;
        TargetBeginsLater(s, latest, d);
      }
    }
    assert Drains(s, x, y) && forall z :: !Drains(s, y, z);
  }

  /** In every reachable state a claim is protected exactly as often as it has cancel calls in progress,
      so once those are over, however each of them ended, the count is back where it started. */
  lemma ProtectionIsBalanced(states: seq<State>, events: seq<Event>, i: nat, no: ClaimNo)
    requires IsRun(states, events) && i < |states|
    ensures
      var s := states[i];
      && Protections(s, no) == |CallsOf(s.calls, no)|
      && ((forall c | c in s.calls :: s.calls[c].source != Some(no)) ==> no !in s.protection)
      && (forall c | c in s.calls && s.calls[c].source == Some(no) :: Excluded(s, no, None))
  {
    Reachable(states, events, i);
    var s := states[i];
    assert ProtectionOk(s, no);
    if forall c | c in s.calls :: s.calls[c].source != Some(no) {
      assert CallsOf(s.calls, no) == {};
    }
    forall c | c in s.calls && s.calls[c].source == Some(no)
      ensures Excluded(s, no, None)
    {
      assert c in CallsOf(s.calls, no);
    }
  }

  // ---- Exclusive ownership ----

  predicate Live(s: State, no: ClaimNo) {
    no in s.entries && no !in s.departures
  }

  /** In every reachable state the keys that lead to a live claim are its voice key and, once bound, its status key, and no
      others; to a claim that has left, none. */
  lemma KeysAreExact(states: seq<State>, events: seq<Event>, i: nat, no: ClaimNo, k: Key)
    requires IsRun(states, events) && i < |states| && no in states[i].entries
    ensures
      var s := states[i];
      (k in s.pending && s.pending[k] == no) <==>
      (Live(s, no) && (k == VoiceKey(s.entries[no]) || (s.entries[no].status.Some? && k == StatusKey(s.entries[no]))))
  {
    Reachable(states, events, i);
    assert KeyOk(states[i], k) && EntryOk(states[i], no);
  }

  lemma StepKeepsDepartures(s: State, e: Event, no: ClaimNo)
    requires Inv(s) && Enabled(s, e)
    ensures no in s.departures ==> no in Step(s, e).departures && Step(s, e).departures[no] == s.departures[no]
    ensures no in s.entries ==> no in Step(s, e).entries
  {
    match e {
      case FinishOwnership(i) =>
        if EntryFor(s, s.entries[i].claim).Some? {
          LiveIsInRegistry(s, s.entries[i].claim);
        }
      case Discard(claim) =>
        if EntryFor(s, claim).Some? {
          LiveIsInRegistry(s, claim);
        }
      case CancelSelects(c, key) => assert KeyOk(s, key);
      case CancelSelectsScope(c, scope) => ScopeTargets(s, scope, s.calls[c].source);
      case _ =>
    }
  }

  /** Each claim leaves once: of completed, cancelled and discarded at most one ever holds for it, and
      it stays what it was for the rest of the run, with no key leading to it any more. */
  lemma {:induction false} LeavesOnce(states: seq<State>, events: seq<Event>, i: nat, j: nat, no: ClaimNo)
    requires IsRun(states, events) && i <= j < |states| && no in states[i].departures
    ensures no in states[j].departures && states[j].departures[no] == states[i].departures[no]
    ensures forall k | k in states[j].pending :: states[j].pending[k] != no
    decreases j - i
  {
    Reachable(states, events, i);
    if i < j {
      assert StepAt(states, events, i);
      StepKeepsDepartures(states[i], events[i], no);
      LeavesOnce(states, events, i + 1, j, no);
    } else {
      forall k | k in states[j].pending
        ensures states[j].pending[k] != no
      {
        assert KeyOk(states[j], k);
      }
    }
  }

  /** A handoff whose task is over completes exactly when nobody has cancelled or discarded it. */
  lemma HandoffCompletesIffOwned(states: seq<State>, events: seq<Event>, i: nat, no: ClaimNo)
    requires IsRun(states, events) && i < |events| && events[i] == FinishOwnership(no)
    ensures
      var s, t := states[i], states[i + 1];
      if no in s.departures then t == s else no in t.departures && t.departures[no] == Completed
  {
    Reachable(states, events, i);
    assert StepAt(states, events, i);
    var s := states[i];
    assert EntryOk(s, no);
    if EntryFor(s, s.entries[no].claim).Some? {
      LiveIsInRegistry(s, s.entries[no].claim);
    }
  }

  /** The claim on whose behalf a section runs, if it names one. */
  function Acting(s: State, e: Event): Option<ClaimNo> {
    match e
    case BindStatus(claim, _) => Some(claim.claimNo)
    case StartHandoff(claim) => Some(claim.claimNo)
    case Discard(claim) => Some(claim.claimNo)
    case FinishOwnership(no) => Some(no)
    case _ => None
  }

  lemma ActingTouchesItsOwn(s: State, e: Event, other: ClaimNo)
    requires Inv(s) && Enabled(s, e) && Acting(s, e).Some?
    ensures !Live(s, Acting(s, e).value) ==> Step(s, e) == s
    ensures other != Acting(s, e).value && other in s.entries ==>
              var t := Step(s, e);
              && t.entries[other] == s.entries[other]
              && (Live(t, other) <==> Live(s, other))
              && (forall k :: k in s.pending && s.pending[k] == other <==> k in t.pending && t.pending[k] == other)
  {
    var t := Step(s, e);
    assert EntryOk(s, Acting(s, e).value);
    match e {
      case BindStatus(claim, _) =>
        if EntryFor(s, claim).Some? {
          LiveIsInRegistry(s, claim);
        }
      case StartHandoff(claim) =>
        if EntryFor(s, claim).Some? {
          LiveIsInRegistry(s, claim);
        }
      case Discard(claim) =>
        if EntryFor(s, claim).Some? {
          LiveIsInRegistry(s, claim);
        }
      case FinishOwnership(no) =>
        if EntryFor(s, s.entries[no].claim).Some? {
          LiveIsInRegistry(s, s.entries[no].claim);
        }
    }
  }

  /** A claim that no longer owns its entry changes nothing at all, and no claim ever binds, hands off
      or removes the reservation of another, not even a newer one of the same message. */
  lemma StaleClaimsAreHarmless(states: seq<State>, events: seq<Event>, i: nat, other: ClaimNo)
    requires IsRun(states, events) && i < |events| && Acting(states[i], events[i]).Some?
    ensures !Live(states[i], Acting(states[i], events[i]).value) ==> states[i + 1] == states[i]
    ensures
      var s, t := states[i], states[i + 1];
      other != Acting(s, events[i]).value && other in s.entries ==>
        && other in t.entries && t.entries[other] == s.entries[other]
        && (Live(t, other) <==> Live(s, other))
        && (forall k :: k in s.pending && s.pending[k] == other <==> k in t.pending && t.pending[k] == other)
  {
    Reachable(states, events, i);
    assert StepAt(states, events, i);
    ActingTouchesItsOwn(states[i], events[i], other);
  }

  /** A bulk cancellation takes exactly the live claims of the scope that are neither its own nor taking
      part in another cancellation, each once however many keys lead to it. */
  lemma BulkCancelIsExact(
    states: seq<State>, events: seq<Event>, i: nat, c: CallId, scope: Option<Scope>, no: ClaimNo)
    requires IsRun(states, events) && i < |events| && events[i] == CancelSelectsScope(c, scope)
    ensures
      var s, t := states[i], states[i + 1];
      && c in s.calls && c in t.calls
      && (no in t.calls[c].targets <==>
            && Live(s, no)
            && (scope.None? || s.entries[no].claim.scope == scope.value)
            && !Excluded(s, no, s.calls[c].source))
  {
    Reachable(states, events, i);
    assert StepAt(states, events, i);
    var s := states[i];
    ScopeTargets(s, scope, s.calls[c].source);
    assert EntryOk(s, no);
    if no in InScope(s, scope, s.calls[c].source) {
      var k :| k in s.pending && (scope.None? || k.scope == scope.value) && s.pending[k] == no;
      assert KeyOk(s, k);
    }
    if Live(s, no) {
      assert VoiceKey(s.entries[no]) in s.pending;
    }
  }

  /** A reply to the status message deletes only that status; a reply to the voice note, or a bulk
      cancellation, deletes the note and the status it has. */
  lemma DeletedMessages(states: seq<State>, events: seq<Event>, i: nat, no: ClaimNo, k: Key)
    requires IsRun(states, events) && i < |states| && k in states[i].pending && states[i].pending[k] == no
    ensures no in states[i].entries
    ensures
      var e := states[i].entries[no];
      var status := if e.status.Some? then {e.status.value} else {};
      && DeleteIds(e, None) == {e.claim.voiceId} + status
      && DeleteIds(e, Some(k.id)) == if k == VoiceKey(e) then {e.claim.voiceId} + status else {k.id}
  {
    Reachable(states, events, i);
    assert KeyOk(states[i], k);
  }
}
