/** The invariant of every reachable state of the voice registry, and that each section keeps it. */
module VoiceInvariant {
  import opened Options
  import opened VoiceSpec

  // ---- Ownership ----

  /** A key of the registry leads to an entry that is still there and has that key. */
  ghost predicate KeyOk(s: State, k: Key) {
    k in s.pending ==>
      && s.pending[k] in s.entries
      && s.pending[k] !in s.departures
      && var e := s.entries[s.pending[k]];
         k == VoiceKey(e) || (e.status.Some? && k == StatusKey(e))
  }

  /** An entry that has not left is under its voice key and, once bound, its status key. */
  ghost predicate EntryOk(s: State, no: ClaimNo) {
    no in s.entries ==>
      var e := s.entries[no];
      && no < s.nextClaim
      && e.claim.claimNo == no
      && (!e.task.NoTask? ==> e.status.Some?)
      && (no !in s.departures ==>
            && VoiceKey(e) in s.pending && s.pending[VoiceKey(e)] == no
            && (e.status.Some? ==> StatusKey(e) in s.pending && s.pending[StatusKey(e)] == no))
  }

  ghost predicate OwnershipOk(s: State) {
    && (forall k :: KeyOk(s, k))
    && (forall no :: EntryOk(s, no))
    && s.departures.Keys <= s.entries.Keys
  }

  lemma ReserveKeeps(s: State, scope: Scope, voiceId: MessageId)
    requires OwnershipOk(s) && Enabled(s, Reserve(scope, voiceId))
    ensures OwnershipOk(Step(s, Reserve(scope, voiceId)))
  {
    var t := Step(s, Reserve(scope, voiceId));
    forall k
      ensures KeyOk(t, k)
    {
      assert KeyOk(s, k);
    }
    forall i
      ensures EntryOk(t, i)
    {
      assert EntryOk(s, i);
    }
  }

  lemma BindKeeps(s: State, claim: Claim, status: MessageId)
    requires OwnershipOk(s)
    ensures OwnershipOk(Step(s, BindStatus(claim, status)))
  {
    var t := Step(s, BindStatus(claim, status));
    assert KeyOk(s, Key(claim.scope, claim.voiceId));
    forall k
      ensures KeyOk(t, k)
    {
      assert KeyOk(s, k);
    }
    forall i
      ensures EntryOk(t, i)
    {
      assert EntryOk(s, i);
    }
  }

  lemma TaskKeeps(s: State, no: ClaimNo, task: Task)
    requires OwnershipOk(s) && no in s.entries && s.entries[no].status.Some?
    ensures OwnershipOk(s.(entries := s.entries[no := s.entries[no].(task := task)]))
  {
    var t := s.(entries := s.entries[no := s.entries[no].(task := task)]);
    forall k
      ensures KeyOk(t, k)
    {
      assert KeyOk(s, k);
    }
    forall i
      ensures EntryOk(t, i)
    {
      assert EntryOk(s, i);
    }
  }

  lemma RemoveKeeps(s: State, no: ClaimNo, how: Departure)
    requires OwnershipOk(s) && no in s.entries && no !in s.departures
    ensures OwnershipOk(Remove(s, no, how))
  {
    var t := Remove(s, no, how);
    forall k
      ensures KeyOk(t, k)
    {
      assert KeyOk(s, k);
    }
    forall i
      ensures EntryOk(t, i)
    {
      assert EntryOk(s, i);
    }
  }

  lemma RemoveAllKeeps(s: State, targets: set<ClaimNo>)
    requires OwnershipOk(s) && targets <= s.entries.Keys
    ensures OwnershipOk(RemoveAll(s, targets))
  {
    var t := RemoveAll(s, targets);
    forall k
      ensures KeyOk(t, k)
    {
      assert KeyOk(s, k);
    }
    forall i
      ensures EntryOk(t, i)
    {
      assert EntryOk(s, i);
    }
  }

  // ---- Cancellation ----

  function CallsOf(calls: map<CallId, Call>, no: ClaimNo): set<CallId> {
    set c | c in calls && calls[c].source == Some(no)
  }

  /** The protection count of a claim is the number of its cancel calls in progress. */
  ghost predicate ProtectionOk(s: State, no: ClaimNo) {
    && Protections(s, no) == |CallsOf(s.calls, no)|
    && (no in s.protection ==> s.protection[no] > 0)
  }

  ghost predicate CallOk(s: State, c: CallId) {
    c in s.calls ==>
      var call := s.calls[c];
      && call.start < s.clock
      && call.targets <= s.departures.Keys
      && (match call.selected
          case None => call.targets == {}
          case Some(at) => call.start < at < s.clock)
  }

  /** Whatever a selected target cancels in turn, it began after it was selected. */
  ghost predicate OrderOk(s: State, c: CallId, d: CallId) {
    c in s.calls && d in s.calls && s.calls[c].selected.Some? && s.calls[d].source.Some?
    && s.calls[d].source.value in s.calls[c].targets
    ==> s.calls[c].selected.value < s.calls[d].start
  }

  ghost predicate CallsOk(s: State) {
    && (forall no :: ProtectionOk(s, no))
    && (forall c :: CallOk(s, c))
    && (forall c, d :: OrderOk(s, c, d))
  }

  ghost predicate Inv(s: State) {
    OwnershipOk(s) && CallsOk(s)
  }

  lemma StartInv()
    ensures Inv(Start())
  {
    forall no
      ensures ProtectionOk(Start(), no)
    {
      assert CallsOf(Start().calls, no) == {};
    }
  }

  /** Sections that leave the cancel calls alone keep what holds of them. */
  lemma CallsFrame(s: State, t: State)
    requires CallsOk(s)
    requires t.calls == s.calls && t.protection == s.protection && t.clock == s.clock
    requires s.departures.Keys <= t.departures.Keys
    ensures CallsOk(t)
  {
    forall no
      ensures ProtectionOk(t, no)
    {
      assert ProtectionOk(s, no);
    }
    forall c
      ensures CallOk(t, c)
    {
      assert CallOk(s, c);
    }
    forall c, d
      ensures OrderOk(t, c, d)
    {
      assert OrderOk(s, c, d);
    }
  }

  lemma CallAdded(calls: map<CallId, Call>, c: CallId, call: Call, no: ClaimNo)
    requires c !in calls
    ensures |CallsOf(calls[c := call], no)| == |CallsOf(calls, no)| + if call.source == Some(no) then 1 else 0
  {
    if call.source == Some(no) {
      assert CallsOf(calls[c := call], no) == CallsOf(calls, no) + {c};
    } else {
      assert CallsOf(calls[c := call], no) == CallsOf(calls, no);
    }
  }

  lemma CallDropped(calls: map<CallId, Call>, c: CallId, no: ClaimNo)
    requires c in calls
    ensures
      var left := map k | k in calls && k != c :: calls[k];
      |CallsOf(left, no)| == |CallsOf(calls, no)| - if calls[c].source == Some(no) then 1 else 0
  {
    var left := map k | k in calls && k != c :: calls[k];
    if calls[c].source == Some(no) {
      assert CallsOf(calls, no) == CallsOf(left, no) + {c};
    } else {
      assert CallsOf(calls, no) == CallsOf(left, no);
    }
  }

  lemma BeginKeeps(s: State, c: CallId, source: Option<ClaimNo>)
    requires CallsOk(s) && Enabled(s, CancelBegins(c, source))
    ensures CallsOk(Step(s, CancelBegins(c, source)))
  {
    var t := Step(s, CancelBegins(c, source));
    forall no
      ensures ProtectionOk(t, no)
    {
      assert ProtectionOk(s, no);
      CallAdded(s.calls, c, Call(source, s.clock, None, {}), no);
    }
    forall i
      ensures CallOk(t, i)
    {
      assert CallOk(s, i);
    }
    forall i, j
      ensures OrderOk(t, i, j)
    {
      assert OrderOk(s, i, j) && CallOk(s, i);
    }
  }

  /** A call ends with the protection it took given back. */
  lemma EndKeeps(s: State, c: CallId)
    requires CallsOk(s) && c in s.calls
    ensures CallsOk(EndCall(s, c))
  {
    var t := EndCall(s, c);
    forall no
      ensures ProtectionOk(t, no)
    {
      assert ProtectionOk(s, no);
      CallDropped(s.calls, c, no);
    }
    forall i
      ensures CallOk(t, i)
    {
      assert CallOk(s, i);
    }
    forall i, j
      ensures OrderOk(t, i, j)
    {
      assert OrderOk(s, i, j);
    }
  }

  /** No cancel call of an unprotected claim is in progress. */
  lemma UnprotectedHasNoCalls(s: State, no: ClaimNo, d: CallId)
    requires CallsOk(s) && Protections(s, no) == 0 && d in s.calls
    ensures s.calls[d].source != Some(no)
  {
    assert ProtectionOk(s, no);
    assert CallsOf(s.calls, no) == {};
    assert d !in CallsOf(s.calls, no);
  }

  lemma SelectKeeps(s: State, c: CallId, targets: set<ClaimNo>)
    requires CallsOk(s) && c in s.calls && s.calls[c].selected.None?
    requires targets <= s.departures.Keys
    requires forall no | no in targets :: Protections(s, no) == 0
    ensures CallsOk(Select(s, c, targets))
  {
    var t := Select(s, c, targets);
    forall no
      ensures ProtectionOk(t, no)
    {
      assert ProtectionOk(s, no);
      assert CallsOf(t.calls, no) == CallsOf(s.calls, no);
    }
    forall i
      ensures CallOk(t, i)
    {
      assert CallOk(s, i);
    }
    forall i, j
      ensures OrderOk(t, i, j)
    {
      assert OrderOk(s, i, j);
      if j in s.calls && s.calls[j].source.Some? && s.calls[j].source.value in targets {
        UnprotectedHasNoCalls(s, s.calls[j].source.value, j);
      }
    }
  }

  // ---- Steps ----

  lemma LiveIsInRegistry(s: State, claim: Claim)
    requires OwnershipOk(s) && EntryFor(s, claim).Some?
    ensures EntryFor(s, claim) == Some(claim.claimNo)
    ensures claim.claimNo in s.entries && claim.claimNo !in s.departures && s.entries[claim.claimNo].claim == claim
  {
    var key := Key(claim.scope, claim.voiceId);
    assert KeyOk(s, key) && EntryOk(s, s.pending[key]);
  }

  lemma ScopeTargets(s: State, scope: Option<Scope>, source: Option<ClaimNo>)
    requires OwnershipOk(s)
    ensures InScope(s, scope, source) <= s.entries.Keys
    ensures forall no | no in InScope(s, scope, source) :: no !in s.departures && Protections(s, no) == 0 && source != Some(no)
  {
    forall no | no in InScope(s, scope, source)
      ensures no in s.entries && no !in s.departures
    {
      var k :| k in s.pending && s.pending[k] == no;
      assert KeyOk(s, k);
    }
  }

  lemma StepKeepsInv(s: State, e: Event)
    requires Inv(s) && Enabled(s, e)
    ensures Inv(Step(s, e))
  {
    var t := Step(s, e);
    match e {
      case Reserve(scope, voiceId) =>
        ReserveKeeps(s, scope, voiceId);
        CallsFrame(s, t);
      case BindStatus(claim, status) =>
        BindKeeps(s, claim, status);
        CallsFrame(s, t);
      case StartHandoff(claim) =>
        if CanHandOff(s, claim) {
          LiveIsInRegistry(s, claim);
          TaskKeeps(s, claim.claimNo, Running);
          CallsFrame(s, t);
        }
      case TaskEnds(no) =>
        assert EntryOk(s, no);
        TaskKeeps(s, no, Done);
        CallsFrame(s, t);
      case FinishOwnership(no) =>
        if EntryFor(s, s.entries[no].claim) == Some(no) {
          LiveIsInRegistry(s, s.entries[no].claim);
          RemoveKeeps(s, no, Completed);
          CallsFrame(s, t);
        }
      case Discard(claim) =>
        if EntryFor(s, claim).Some? {
          LiveIsInRegistry(s, claim);
          RemoveKeeps(s, claim.claimNo, Discarded);
          CallsFrame(s, t);
        }
      case CancelBegins(c, source) =>
        BeginKeeps(s, c, source);
        OwnershipFrame(s, t);
      case CancelSelects(c, key) => CancelSelectsKeeps(s, c, key);
      case CancelSelectsScope(c, scope) =>
        var targets := InScope(s, scope, s.calls[c].source);
        ScopeTargets(s, scope, s.calls[c].source);
        RemoveAllKeeps(s, targets);
        CallsFrame(s, RemoveAll(s, targets));
        SelectKeeps(RemoveAll(s, targets), c, targets);
        OwnershipFrame(RemoveAll(s, targets), t);
      case CancelEnds(c) =>
        EndKeeps(s, c);
        OwnershipFrame(s, t);
    }
  }

  lemma CancelSelectsKeeps(s: State, c: CallId, key: Key)
    requires Inv(s) && Enabled(s, CancelSelects(c, key))
    ensures Inv(Step(s, CancelSelects(c, key)))
  {
    var t := Step(s, CancelSelects(c, key));
    assert KeyOk(s, key);
    if key !in s.pending || Excluded(s, s.pending[key], s.calls[c].source) {
      EndKeeps(s, c);
      OwnershipFrame(s, t);
    } else {
      var no := s.pending[key];
      RemoveKeeps(s, no, Cancelled);
      CallsFrame(s, Remove(s, no, Cancelled));
      SelectKeeps(Remove(s, no, Cancelled), c, {no});
      OwnershipFrame(Remove(s, no, Cancelled), t);
    }
  }

  lemma OwnershipFrame(s: State, t: State)
    requires OwnershipOk(s)
    requires t == s.(calls := t.calls, protection := t.protection, clock := t.clock)
    ensures OwnershipOk(t)
  {
    forall k
      ensures KeyOk(t, k)
    {
      assert KeyOk(s, k);
    }
    forall i
      ensures EntryOk(t, i)
    {
      assert EntryOk(s, i);
    }
  }
}
