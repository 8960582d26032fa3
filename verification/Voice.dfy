/** The objects of messaging/voice.py. Each method is one locked section and moves the abstract state as
    `VoiceSpec.Step` says; the promises about runs are in VoiceRuns. */
module Voice {
  import opened Options
  import opened VoiceSpec
  import opened VoiceInvariant

  /** Removing the entries of a set one at a time: each is found under one of its keys and taken out
      with all of them. */
  lemma RemoveOneMore(s: State, done: set<ClaimNo>, no: ClaimNo)
    requires OwnershipOk(s) && no in s.entries && no !in s.departures && no !in done
    ensures Remove(RemoveAll(s, done), no, Cancelled) == RemoveAll(s, done + {no})
    ensures exists k :: k in RemoveAll(s, done).pending && RemoveAll(s, done).pending[k] == no
  {
    var one, more := Remove(RemoveAll(s, done), no, Cancelled), RemoveAll(s, done + {no});
    assert EntryOk(s, no);
    assert VoiceKey(s.entries[no]) in RemoveAll(s, done).pending;
    forall k
      ensures k in one.pending <==> k in more.pending
    {
      assert KeyOk(s, k);
    }
    assert one.pending == more.pending;
    assert one.departures == more.departures;
  }

  class PendingVoice {
    const claim: Claim
    var status: Option<MessageId>
    var task: Task

    constructor (claim: Claim)
      ensures this.claim == claim && View() == Entry(claim, None, NoTask)
    {
      this.claim := claim;
      status, task := None, NoTask;
    }

    function View(): Entry
      reads this
    {
      Entry(claim, status, task)
    }
  }

  class PendingVoiceRegistry {
    var pending: map<Key, PendingVoice>
    var activeCancellations: map<ClaimNo, nat>
    var nextClaim: ClaimNo
    var calls: map<CallId, Call>
    var clock: nat
    ghost var entries: map<ClaimNo, PendingVoice>
    ghost var departures: map<ClaimNo, Departure>

    ghost predicate Valid()
      reads this`pending, this`entries
    {
      && (forall no | no in entries :: entries[no].claim.claimNo == no)
      && (forall k | k in pending :: pending[k].claim.claimNo in entries && entries[pending[k].claim.claimNo] == pending[k])
    }

    ghost function Entries(): map<ClaimNo, Entry>
      reads this`entries, entries.Values
    {
      map no | no in entries :: entries[no].View()
    }

    ghost function Keys(): map<Key, ClaimNo>
      reads this`pending
    {
      map k | k in pending :: pending[k].claim.claimNo
    }

    ghost function View(): State
      reads this, entries.Values
    {
      State(Keys(), Entries(), nextClaim, activeCancellations, calls, clock, departures)
    }

    constructor ()
      ensures Valid() && View() == Start()
    {
      pending, activeCancellations, nextClaim, calls, clock := map[], map[], 0, map[], 0;
      entries, departures := map[], map[];
    }

    // ---- Lookup and removal ----

    method EntryForClaim(claim: Claim) returns (entry: PendingVoice?)
      requires Valid()
      ensures entry == null <==> EntryFor(View(), claim).None?
      ensures entry != null ==>
                entry.claim.claimNo in entries && entries[entry.claim.claimNo] == entry
                && EntryFor(View(), claim) == Some(entry.claim.claimNo)
    {
      var key := Key(claim.scope, claim.voiceId);
      if key in pending && pending[key].claim == claim {
        entry := pending[key];
      } else {
        entry := null;
      }
    }

    method PopIf(key: Key, entry: PendingVoice)
      requires Valid() && entry.claim.claimNo in entries && entries[entry.claim.claimNo] == entry
      modifies this`pending
      ensures Valid() && Keys() == DropIf(old(Keys()), key, entry.claim.claimNo)
    {
      if key in pending && pending[key] == entry {
        pending := map k | k in pending && k != key :: pending[k];
      }
    }

    /** `_remove`. */
    method RemoveEntry(entry: PendingVoice, ghost how: Departure)
      requires Valid() && entry.claim.claimNo in entries && entries[entry.claim.claimNo] == entry
      modifies this`pending, this`departures
      ensures Valid() && View() == Remove(old(View()), entry.claim.claimNo, how)
    {
      PopIf(Key(entry.claim.scope, entry.claim.voiceId), entry);
      departures := departures[entry.claim.claimNo := how];
      if entry.status.Some? {
        PopIf(Key(entry.claim.scope, entry.status.value), entry);
      }
    }

    // ---- reserve, bind_status, handoff, discard ----

    method Reserve(scope: Scope, voiceId: MessageId) returns (claim: Option<Claim>)
      requires Valid() && Enabled(View(), VoiceSpec.Reserve(scope, voiceId))
      modifies this`pending, this`nextClaim, this`entries
      ensures Valid() && View() == Step(old(View()), VoiceSpec.Reserve(scope, voiceId))
      ensures claim == if Key(scope, voiceId) in old(pending) then None else Some(Claim(scope, voiceId, old(nextClaim)))
    {
      var key := Key(scope, voiceId);
      if key in pending {
        return None;
      }
      claim := Some(Claim(scope, voiceId, nextClaim));
      AddEntry(key, claim.value);
      nextClaim := nextClaim + 1;
    }

    method AddEntry(key: Key, claim: Claim)
      requires Valid() && claim.claimNo !in entries
      modifies this`pending, this`entries
      ensures Valid()
      ensures Keys() == old(Keys())[key := claim.claimNo]
      ensures Entries() == old(Entries())[claim.claimNo := Entry(claim, None, NoTask)]
    {
      var entry := new PendingVoice(claim);
      pending := pending[key := entry];
      entries := entries[claim.claimNo := entry];
    }

    method BindStatus(claim: Claim, status: MessageId) returns (bound: bool)
      requires Valid()
      modifies this`pending, entries.Values
      ensures Valid() && View() == Step(old(View()), VoiceSpec.BindStatus(claim, status))
      ensures bound == BindAnswer(old(View()), claim, status)
    {
      var entry := EntryForClaim(claim);
      if entry == null {
        return false;
      }
      if entry.status.Some? {
        return entry.status.value == status;
      }
      var key := Key(claim.scope, status);
      if key in pending && pending[key] != entry {
        return false;
      }
      WriteStatus(entry, status);
      bound := true;
    }

    /** The status id becomes the entry's second key. */
    method WriteStatus(entry: PendingVoice, status: MessageId)
      requires Valid() && entry.claim.claimNo in entries && entries[entry.claim.claimNo] == entry
      modifies this`pending, entry
      ensures Valid() && View() == Bind(old(View()), entry.claim.claimNo, status)
    {
      SetStatus(entry, status);
      AddKey(Key(entry.claim.scope, status), entry);
    }

    method SetStatus(entry: PendingVoice, status: MessageId)
      requires Valid() && entry.claim.claimNo in entries && entries[entry.claim.claimNo] == entry
      modifies entry
      ensures Valid()
      ensures View() == old(View()).(entries := old(Entries())[entry.claim.claimNo := old(entry.View()).(status := Some(status))])
    {
      ghost var before := Entries();
      entry.status := Some(status);
      assert Entries() == before[entry.claim.claimNo := entry.View()];
    }

    method AddKey(key: Key, entry: PendingVoice)
      requires Valid() && entry.claim.claimNo in entries && entries[entry.claim.claimNo] == entry
      modifies this`pending
      ensures Valid() && View() == old(View()).(pending := old(Keys())[key := entry.claim.claimNo])
    {
      pending := pending[key := entry];
    }

    /** The locked part of `handoff`: at most one task per claim, and only for a bound, live one. */
    method StartHandoff(claim: Claim) returns (rejected: bool)
      requires Valid()
      modifies entries.Values
      ensures Valid() && View() == Step(old(View()), VoiceSpec.StartHandoff(claim))
      ensures rejected <==> !CanHandOff(old(View()), claim)
    {
      var entry := EntryForClaim(claim);
      if entry == null || entry.status.None? || !entry.task.NoTask? {
        return true;
      }
      entry.task := Running;
      rejected := false;
    }

    method TaskEnds(entry: PendingVoice)
      requires Valid() && entry.claim.claimNo in entries && entries[entry.claim.claimNo] == entry
      requires Enabled(View(), VoiceSpec.TaskEnds(entry.claim.claimNo))
      modifies entry
      ensures Valid() && View() == Step(old(View()), VoiceSpec.TaskEnds(entry.claim.claimNo))
    {
      entry.task := Done;
    }

    /** `_complete_if_owned`. */
    method CompleteIfOwned(entry: PendingVoice) returns (completed: bool)
      requires Valid() && entry.claim.claimNo in entries && entries[entry.claim.claimNo] == entry
      requires Enabled(View(), FinishOwnership(entry.claim.claimNo))
      modifies this`pending, this`departures
      ensures Valid() && View() == Step(old(View()), FinishOwnership(entry.claim.claimNo))
      ensures completed <==> EntryFor(old(View()), entry.claim) == Some(entry.claim.claimNo)
    {
      var owner := EntryForClaim(entry.claim);
      if owner != entry {
        return false;
      }
      RemoveEntry(entry, Completed);
      completed := true;
    }

    method Discard(claim: Claim) returns (discarded: bool)
      requires Valid()
      modifies this`pending, this`departures
      ensures Valid() && View() == Step(old(View()), VoiceSpec.Discard(claim))
      ensures discarded <==> EntryFor(old(View()), claim).Some?
    {
      var entry := EntryForClaim(claim);
      if entry == null {
        return false;
      }
      RemoveEntry(entry, Discarded);
      discarded := true;
    }

    // ---- cancel, cancel_all, cancel_scope ----

    method ProtectClaim(source: Option<ClaimNo>)
      requires Valid()
      modifies this`activeCancellations
      ensures Valid() && View() == Protect(old(View()), source)
    {
      if source.Some? {
        var count: nat := if source.value in activeCancellations then activeCancellations[source.value] else 0;
        activeCancellations := activeCancellations[source.value := count + 1];
      }
    }

    method UnprotectClaim(source: Option<ClaimNo>)
      requires Valid()
      modifies this`activeCancellations
      ensures Valid() && View() == Unprotect(old(View()), source)
    {
      if source.Some? {
        var no := source.value;
        var count: nat := if no in activeCancellations then activeCancellations[no] else 0;
        var remaining: int := count - 1;
        if remaining > 0 {
          activeCancellations := activeCancellations[no := remaining];
        } else {
          activeCancellations := map k | k in activeCancellations && k != no :: activeCancellations[k];
        }
      }
    }

    method CancelBegins(call: CallId, source: Option<ClaimNo>)
      requires Valid() && Enabled(View(), VoiceSpec.CancelBegins(call, source))
      modifies this`activeCancellations, this`calls, this`clock
      ensures Valid() && View() == Step(old(View()), VoiceSpec.CancelBegins(call, source))
    {
      ProtectClaim(source);
      calls := calls[call := Call(source, clock, None, {})];
      clock := clock + 1;
    }

    method FinishCall(call: CallId)
      requires Valid() && call in calls
      modifies this`activeCancellations, this`calls
      ensures Valid() && View() == EndCall(old(View()), call)
    {
      UnprotectClaim(calls[call].source);
      calls := map c | c in calls && c != call :: calls[c];
    }

    /** The locked part of `cancel`: one entry by either of its keys, unless it is excluded. */
    method CancelSelects(call: CallId, key: Key) returns (none: bool)
      requires Valid() && Enabled(View(), VoiceSpec.CancelSelects(call, key))
      modifies this`pending, this`departures, this`activeCancellations, this`calls, this`clock
      ensures Valid() && View() == Step(old(View()), VoiceSpec.CancelSelects(call, key))
      ensures none <==> key !in old(pending)
                        || Excluded(old(View()), old(Keys())[key], old(calls)[call].source)
    {
      var current := calls[call].source;
      if key !in pending || IsExcluded(pending[key], current) {
        FinishCall(call);
        return true;
      }
      var entry := pending[key];
      RemoveEntry(entry, Cancelled);
      Selected(call, {entry.claim.claimNo});
      none := false;
    }

    predicate IsExcluded(entry: PendingVoice, source: Option<ClaimNo>)
      reads this, entries.Values
      ensures IsExcluded(entry, source) == Excluded(View(), entry.claim.claimNo, source)
    {
      || source == Some(entry.claim.claimNo)
      || (entry.claim.claimNo in activeCancellations && activeCancellations[entry.claim.claimNo] > 0)
    }

    method Selected(call: CallId, targets: set<ClaimNo>)
      requires Valid() && call in calls
      modifies this`calls, this`clock
      ensures Valid() && View() == Select(old(View()), call, targets)
    {
      calls := calls[call := calls[call].(selected := Some(clock), targets := targets)];
      clock := clock + 1;
    }

    method ScopeSelection(scope: Option<Scope>, source: Option<ClaimNo>) returns (targets: set<ClaimNo>)
      requires Valid()
      ensures targets == InScope(View(), scope, source)
    {
      targets := set k | k in pending && (scope.None? || k.scope == scope.value) && !IsExcluded(pending[k], source)
                 :: pending[k].claim.claimNo;
      ghost var before := View();
      forall no
        ensures no in targets <==> no in InScope(before, scope, source)
      {
        if no in targets {
          var k :| k in pending && (scope.None? || k.scope == scope.value) && !IsExcluded(pending[k], source)
                   && no == pending[k].claim.claimNo;
          assert k in before.pending && before.pending[k] == no;
        }
        if no in InScope(before, scope, source) {
          var k :| k in before.pending && (scope.None? || k.scope == scope.value)
                   && !Excluded(before, before.pending[k], source) && no == before.pending[k];
          assert k in pending && pending[k].claim.claimNo == no;
        }
      }
      assert targets == InScope(before, scope, source);
    }

    /** The locked part of `cancel_all` and `cancel_scope`: every entry of the scope that is not
        excluded is removed, once however many keys lead to it. */
    method CancelSelectsScope(call: CallId, scope: Option<Scope>)
      requires Valid() && Enabled(View(), VoiceSpec.CancelSelectsScope(call, scope))
      requires OwnershipOk(View())
      modifies this`pending, this`departures, this`calls, this`clock
      ensures Valid() && View() == Step(old(View()), VoiceSpec.CancelSelectsScope(call, scope))
    {
      var targets := ScopeSelection(scope, calls[call].source);
      ScopeTargets(View(), scope, calls[call].source);
      RemoveTargets(targets);
      Selected(call, targets);
    }

    /** The loop over the selected entries. */
    method RemoveTargets(targets: set<ClaimNo>)
      requires Valid() && OwnershipOk(View())
      requires forall no | no in targets :: no in View().entries && no !in View().departures
      modifies this`pending, this`departures
      ensures Valid() && View() == RemoveAll(old(View()), targets)
    {
      ghost var before := View();
      var done := {};
      assert Keys() == RemoveAll(before, {}).pending;
      while targets - done != {}
        invariant done <= targets && Valid()
        invariant View() == RemoveAll(before, done)
        decreases targets - done
      {
        var no :| no in targets - done;
        RemoveOneMore(before, done, no);
        var key :| key in pending && pending[key].claim.claimNo == no;
        RemoveEntry(pending[key], Cancelled);
        done := done + {no};
      }
      assert forall no | no in targets :: no !in targets - done;
      assert done == targets;
    }

    /** The drain is over. */
    method CancelEnds(call: CallId)
      requires Valid() && Enabled(View(), VoiceSpec.CancelEnds(call))
      modifies this`activeCancellations, this`calls
      ensures Valid() && View() == Step(old(View()), VoiceSpec.CancelEnds(call))
    {
      FinishCall(call);
    }
  }
}
