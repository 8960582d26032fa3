/** What each section of the voice registry achieves, in every state of every run, said in the claims: which
    are reserved, bound, handed off, and how each leaves; and what a cancel call takes. */
module VoiceOperations {
  import opened Options
  import opened VoiceSpec
  import opened VoiceInvariant
  import opened VoiceRuns

  /** A cancel call on behalf of the claim's handoff is in progress. */
  ghost predicate Cancelling(s: State, no: ClaimNo) {
    exists c :: c in s.calls && s.calls[c].source == Some(no)
  }

  lemma ExcludedMeans(s: State, no: ClaimNo, source: Option<ClaimNo>)
    requires CallsOk(s)
    ensures Excluded(s, no, source) <==> source == Some(no) || Cancelling(s, no)
  {
    assert ProtectionOk(s, no);
    if Cancelling(s, no) {
      var c :| c in s.calls && s.calls[c].source == Some(no);
      assert c in CallsOf(s.calls, no);
    } else {
      assert CallsOf(s.calls, no) == {};
    }
  }

  /** A single cancel under a key. */
  ghost predicate TakenByKey(s: State, c: CallId, key: Key, no: ClaimNo)
    requires c in s.calls
  {
    key in s.pending && s.pending[key] == no && s.calls[c].source != Some(no) && !Cancelling(s, no)
  }

  /** A single cancellation takes the claim its key leads to, unless it is the claim the call itself runs
      for or one that is cancelling in turn: that claim leaves as cancelled, no key leads to it any more,
      and the call drains exactly it. Otherwise nothing leaves and the call is over. */
  lemma SingleCancelIsExact(states: seq<State>, events: seq<Event>, n: nat, c: CallId, key: Key)
    requires IsRun(states, events) && n < |events| && events[n] == CancelSelects(c, key)
    ensures c in states[n].calls
    ensures
      var s, t := states[n], states[n + 1];
      if key in s.pending && TakenByKey(s, c, key, s.pending[key]) then
        var no := s.pending[key];
        && no in t.departures && t.departures[no] == Cancelled
        && (forall k | k in t.pending :: t.pending[k] != no)
        && c in t.calls && t.calls[c].targets == {no} && t.calls[c].selected.Some?
        && t.calls[c].source == s.calls[c].source
      else t.pending == s.pending && t.departures == s.departures && c !in t.calls
  {
    Reachable(states, events, n);
    Reachable(states, events, n + 1);
    assert StepAt(states, events, n);
    var s, t := states[n], states[n + 1];
    if key in s.pending {
      ExcludedMeans(s, s.pending[key], s.calls[c].source);
      assert KeyOk(s, key);
      if TakenByKey(s, c, key, s.pending[key]) {
        LeavesOnce(states, events, n + 1, n + 1, s.pending[key]);
      }
    }
  }

  // ---- The life of a claim ----

  /** How the section makes a live claim leave, if it does. */
  ghost predicate Leaves(s: State, e: Event, no: ClaimNo, how: Departure) {
    && Live(s, no)
    && match how
       case Completed => e == FinishOwnership(no)
       case Discarded => e == Discard(s.entries[no].claim)
       case Cancelled =>
         match e
         case CancelSelects(c, key) => c in s.calls && TakenByKey(s, c, key, no)
         case CancelSelectsScope(c, scope) =>
           && c in s.calls && s.calls[c].source != Some(no) && !Cancelling(s, no)
           && (scope.None? || s.entries[no].claim.scope == scope.value)
         case _ => false
  }

  ghost predicate LeavesNow(s: State, e: Event, t: State, no: ClaimNo) {
    && (no in t.departures <==> no in s.departures || exists how :: Leaves(s, e, no, how))
    && (no in s.departures && no in t.departures ==> t.departures[no] == s.departures[no])
    && (forall how :: Leaves(s, e, no, how) ==> no in t.departures && t.departures[no] == how)
  }

  lemma FinishLeaves(s: State, of: ClaimNo, no: ClaimNo)
    requires Inv(s) && Enabled(s, FinishOwnership(of)) && no in s.entries
    ensures LeavesNow(s, FinishOwnership(of), Step(s, FinishOwnership(of)), no)
  {
    assert EntryOk(s, of) && EntryOk(s, no);
    if EntryFor(s, s.entries[of].claim).Some? {
      LiveIsInRegistry(s, s.entries[of].claim);
    }
    assert Leaves(s, FinishOwnership(of), no, Completed) <==> of == no && Live(s, no);
  }

  lemma DiscardLeaves(s: State, claim: Claim, no: ClaimNo)
    requires Inv(s) && no in s.entries
    ensures LeavesNow(s, Discard(claim), Step(s, Discard(claim)), no)
  {
    assert EntryOk(s, no) && EntryOk(s, claim.claimNo);
    if EntryFor(s, claim).Some? {
      LiveIsInRegistry(s, claim);
    }
    assert Leaves(s, Discard(claim), no, Discarded) <==> claim == s.entries[no].claim && Live(s, no);
  }

  lemma CancelLeaves(s: State, c: CallId, key: Key, no: ClaimNo)
    requires Inv(s) && Enabled(s, CancelSelects(c, key)) && no in s.entries
    ensures LeavesNow(s, CancelSelects(c, key), Step(s, CancelSelects(c, key)), no)
  {
    assert KeyOk(s, key);
    if key in s.pending {
      ExcludedMeans(s, s.pending[key], s.calls[c].source);
    }
    assert Leaves(s, CancelSelects(c, key), no, Cancelled) <==> TakenByKey(s, c, key, no);
  }

  lemma ScopeLeaves(s: State, c: CallId, scope: Option<Scope>, no: ClaimNo)
    requires Inv(s) && Enabled(s, CancelSelectsScope(c, scope)) && no in s.entries
    ensures LeavesNow(s, CancelSelectsScope(c, scope), Step(s, CancelSelectsScope(c, scope)), no)
  {
    var targets := InScope(s, scope, s.calls[c].source);
    ExcludedMeans(s, no, s.calls[c].source);
    ScopeTargets(s, scope, s.calls[c].source);
    assert EntryOk(s, no);
    if no in targets {
      var k :| k in s.pending && (scope.None? || k.scope == scope.value) && s.pending[k] == no;
      assert KeyOk(s, k);
    }
    if Live(s, no) {
      assert VoiceKey(s.entries[no]) in s.pending;
    }
    assert Leaves(s, CancelSelectsScope(c, scope), no, Cancelled) <==> no in targets;
  }

  /** A claim leaves in one way and at one moment: completed when its handoff is over and it is still there,
      discarded by its owner, or cancelled by a call that may take it; nothing else makes it leave. */
  lemma LeavesExactlyThen(states: seq<State>, events: seq<Event>, n: nat, no: ClaimNo)
    requires IsRun(states, events) && n < |events| && no in states[n].entries
    ensures LeavesNow(states[n], events[n], states[n + 1], no)
  {
    Reachable(states, events, n);
    assert StepAt(states, events, n);
    var s, e := states[n], events[n];
    match e {
      case FinishOwnership(of) => FinishLeaves(s, of, no);
      case Discard(claim) => DiscardLeaves(s, claim, no);
      case CancelSelects(c, key) => CancelLeaves(s, c, key, no);
      case CancelSelectsScope(c, scope) => ScopeLeaves(s, c, scope, no);
      case _ => assert Step(s, e).departures == s.departures;
    }
  }

  /** The status id is nobody else's key. */
  predicate FreeFor(s: State, key: Key, no: ClaimNo) {
    key in s.pending ==> s.pending[key] == no
  }

  /** A claim keeps its identity; it is bound by the first status bound to it while it is live, under a key
      that is nobody else's; its handoff starts once, when it is live and bound, and is done when its task
      ends. */
  ghost predicate EntryMoves(s: State, e: Event, t: State, no: ClaimNo)
    requires no in s.entries
  {
    && no in t.entries
    && var a, b := s.entries[no], t.entries[no];
       && b.claim == a.claim
       && b.status ==
            (if && e.BindStatus? && e.claim == a.claim && Live(s, no) && a.status.None?
                && FreeFor(s, Key(a.claim.scope, e.status), no)
             then Some(e.status) else a.status)
       && b.task ==
            if e.StartHandoff? && e.claim == a.claim && Live(s, no) && a.status.Some? && a.task.NoTask? then Running
            else if e == TaskEnds(no) then Done
            else a.task
  }

  lemma EntriesMove(states: seq<State>, events: seq<Event>, n: nat, no: ClaimNo)
    requires IsRun(states, events) && n < |events| && no in states[n].entries
    ensures EntryMoves(states[n], events[n], states[n + 1], no)
  {
    Reachable(states, events, n);
    assert StepAt(states, events, n);
    StepMovesEntry(states[n], events[n], no);
  }

  lemma LiveIsFound(s: State, no: ClaimNo)
    requires OwnershipOk(s) && no in s.entries
    ensures EntryFor(s, s.entries[no].claim) == if no in s.departures then None else Some(no)
  {
    assert EntryOk(s, no);
    if EntryFor(s, s.entries[no].claim).Some? {
      LiveIsInRegistry(s, s.entries[no].claim);
    }
  }

  lemma StepMovesEntry(s: State, e: Event, no: ClaimNo)
    requires Inv(s) && Enabled(s, e) && no in s.entries
    ensures EntryMoves(s, e, Step(s, e), no)
  {
    LiveIsFound(s, no);
    match e {
      case BindStatus(claim, _) =>
        if EntryFor(s, claim).Some? {
          LiveIsInRegistry(s, claim);
        }
      case StartHandoff(claim) =>
        if EntryFor(s, claim).Some? {
          LiveIsInRegistry(s, claim);
        }
      case _ =>
    }
  }

  /** A reservation under a free key makes a new live claim with a number of its own, unbound and without a
      handoff; nothing else makes one. */
  lemma OnlyReservationsMakeClaims(states: seq<State>, events: seq<Event>, n: nat)
    requires IsRun(states, events) && n < |events|
    ensures
      var s, e, t := states[n], events[n], states[n + 1];
      var reserved := e.Reserve? && Key(e.scope, e.voiceId) !in s.pending;
      && t.entries.Keys == s.entries.Keys + (if reserved then {s.nextClaim} else {})
      && (reserved ==>
            && s.nextClaim !in s.entries && Live(t, s.nextClaim)
            && t.entries[s.nextClaim] == Entry(Claim(e.scope, e.voiceId, s.nextClaim), None, NoTask))
  {
    Reachable(states, events, n);
    Reachable(states, events, n + 1);
    assert StepAt(states, events, n);
    StepMakesClaims(states[n], events[n]);
  }

  lemma StepMakesClaims(s: State, e: Event)
    requires Inv(s) && Enabled(s, e)
    ensures
      var t := Step(s, e);
      var reserved := e.Reserve? && Key(e.scope, e.voiceId) !in s.pending;
      && t.entries.Keys == s.entries.Keys + (if reserved then {s.nextClaim} else {})
      && (reserved ==>
            && s.nextClaim !in s.entries && Live(t, s.nextClaim)
            && t.entries[s.nextClaim] == Entry(Claim(e.scope, e.voiceId, s.nextClaim), None, NoTask))
  {
    match e {
      case BindStatus(claim, _) =>
        if EntryFor(s, claim).Some? {
          LiveIsInRegistry(s, claim);
        }
      case StartHandoff(claim) =>
        if EntryFor(s, claim).Some? {
          LiveIsInRegistry(s, claim);
        }
      case _ =>
    }
  }

  /** The answers mean what they say: a bind says yes exactly if the claim is live and bound to that status
      afterwards, a handoff starts exactly if it is not rejected, and a discard says yes exactly if the
      claim leaves by it. */
  lemma AnswersAreTrue(states: seq<State>, events: seq<Event>, n: nat, claim: Claim, status: MessageId)
    requires IsRun(states, events) && n < |events|
    ensures
      var s, e, t := states[n], events[n], states[n + 1];
      var no := claim.claimNo;
      && (e == BindStatus(claim, status) ==>
            (BindAnswer(s, claim, status) <==>
             Live(t, no) && t.entries[no].claim == claim && t.entries[no].status == Some(status)))
      && (e == StartHandoff(claim) ==>
            (CanHandOff(s, claim) <==>
             no in s.entries && no in t.entries && !s.entries[no].task.Running? && t.entries[no].task.Running?))
      && (e == Discard(claim) ==>
            (EntryFor(s, claim).Some? <==> no !in s.departures && no in t.departures))
  {
    Reachable(states, events, n);
    assert StepAt(states, events, n);
    var s, no := states[n], claim.claimNo;
    if EntryFor(s, claim).Some? {
      LiveIsInRegistry(s, claim);
    }
    if no in s.entries {
      LiveIsFound(s, no);
      StepMovesEntry(s, events[n], no);
      LeavesExactlyThen(states, events, n, no);
    }
  }

  // ---- Cancel calls ----

  /** A cancel call lasts from its beginning until it finds nothing to take or has drained what it took; it
      takes its targets once, later than it began, and keeps its source. */
  ghost predicate CallMoves(s: State, e: Event, t: State, c: CallId) {
    && (c in t.calls <==>
          || (e.CancelBegins? && e.call == c)
          || (&& c in s.calls && e != CancelEnds(c)
              && !(e.CancelSelects? && e.call == c && forall no :: !TakenByKey(s, c, e.key, no))))
    && (e.CancelBegins? && e.call == c && c in t.calls ==> t.calls[c] == Call(e.source, s.clock, None, {}))
    && (c in s.calls && c in t.calls ==>
          && t.calls[c].source == s.calls[c].source && t.calls[c].start == s.calls[c].start
          && (if (e.CancelSelects? || e.CancelSelectsScope?) && e.call == c then t.calls[c].selected == Some(s.clock)
              else t.calls[c] == s.calls[c]))
  }

  lemma CallsMove(states: seq<State>, events: seq<Event>, n: nat, c: CallId)
    requires IsRun(states, events) && n < |events|
    ensures CallMoves(states[n], events[n], states[n + 1], c)
  {
    Reachable(states, events, n);
    assert StepAt(states, events, n);
    StepMovesCall(states[n], events[n], c);
  }

  lemma SelectMovesCall(s: State, of: CallId, key: Key, c: CallId)
    requires Inv(s) && Enabled(s, CancelSelects(of, key))
    ensures CallMoves(s, CancelSelects(of, key), Step(s, CancelSelects(of, key)), c)
  {
    if key in s.pending {
      ExcludedMeans(s, s.pending[key], s.calls[of].source);
      assert TakenByKey(s, of, key, s.pending[key]) <==> !Excluded(s, s.pending[key], s.calls[of].source);
    }
    assert forall no :: TakenByKey(s, of, key, no) ==> key in s.pending && no == s.pending[key];
  }

  lemma StepMovesCall(s: State, e: Event, c: CallId)
    requires Inv(s) && Enabled(s, e)
    ensures CallMoves(s, e, Step(s, e), c)
  {
    match e {
      case CancelSelects(of, key) => SelectMovesCall(s, of, key, c);
      case CancelBegins(_, _) =>
      case CancelSelectsScope(_, _) =>
      case CancelEnds(_) =>
      case _ => assert Step(s, e).calls == s.calls;
    }
  }
}
