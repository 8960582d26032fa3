/** What provider admission promises over whole runs: any interleaving of any sessions. */
module AdmissionRuns {
  import opened Options
  import opened AdmissionSpec
  import opened AdmissionInvariant
  import SlidingWindow

  ghost predicate StepAt(cfg: Config, states: seq<State>, events: seq<Event>, i: nat)
    requires i < |events| && |states| == |events| + 1
  {
    Enabled(cfg, states[i], events[i]) && states[i + 1] == Step(cfg, states[i], events[i])
  }

  ghost predicate IsRun(cfg: Config, states: seq<State>, events: seq<Event>) {
    && ValidConfig(cfg)
    && |states| == |events| + 1
    && states[0] == Start(cfg, states[0].now)
    && forall i :: 0 <= i < |events| ==> StepAt(cfg, states, events, i)
  }

  lemma {:induction false} Reachable(cfg: Config, states: seq<State>, events: seq<Event>, i: nat)
    requires IsRun(cfg, states, events) && i < |states|
    ensures Inv(cfg, states[i])
  {
    if i == 0 {
      StartInv(cfg, states[0].now);
    } else {
      Reachable(cfg, states, events, i - 1);
      assert StepAt(cfg, states, events, i - 1);
      StepKeepsInv(cfg, states[i - 1], events[i - 1]);
    }
  }

  // ---- Quiet period ----

  /** The attempt count and permit of the session an event reports on. */
  function PermitOf(s: State, sid: SessionId): Permit
    requires sid in s.sessions && s.sessions[sid].phase.Attempting?
  {
    s.sessions[sid].phase.permit
  }

  /** A failure report governs the gate when it opens, re-times or exhausts a recovery episode. */
  predicate Governs(cfg: Config, s: State, e: Event)
    requires Enabled(cfg, s, e)
  {
    && e.action.Retry?
    && Unresolved(s, e.sid)
    && e.action.report.retryable
    && (s.episode.None? || MatchingProbe(s, e.sid, PermitOf(s, e.sid)))
  }

  /** The delay a governing failure imposes, with the jitter sample its branch draws. */
  function DelayOf(cfg: Config, s: State, e: Event): nat
    requires Enabled(cfg, s, e) && Governs(cfg, s, e)
  {
    var report := e.action.report;
    RetryDelay(cfg, report.error, s.sessions[e.sid].attemptsStarted,
               if CanRetry(cfg, s, e.sid, report.error) then report.jitter else report.terminalJitter)
  }

  /** No attempt can be claimed from this state before `barrier`. */
  ghost predicate Quiet(s: State, barrier: int) {
    || barrier <= s.now
    || (&& s.episode.Some?
        && !s.episode.value.probeActive
        && match s.episode.value.terminalUntil
           case Some(until) => barrier <= until
           case None => barrier <= s.episode.value.readyAt)
  }

  lemma GoverningFailureQuiets(cfg: Config, s: State, e: Event)
    requires GateOk(cfg, s) && Enabled(cfg, s, e) && Governs(cfg, s, e)
    ensures Quiet(Step(cfg, s, e), e.at + DelayOf(cfg, s, e))
  {
  }

  lemma GateKeepsQuiet(s: State, sid: SessionId, barrier: int)
    requires sid in s.sessions && Quiet(s, barrier)
    ensures Quiet(GateSection(s, sid), barrier)
  {
  }

  lemma FailAttemptKeepsQuiet(cfg: Config, s: State, sid: SessionId, permit: Permit, report: FailureReport, barrier: int)
    requires sid in s.sessions && Quiet(s, barrier)
    ensures Quiet(FailAttempt(cfg, s, sid, permit, report), barrier)
  {
  }

  lemma RateKeepsQuiet(cfg: Config, s: State, sid: SessionId, barrier: int)
    requires sid in s.sessions && s.sessions[sid].phase.AwaitingRate? && SlidingWindow.HeadInRange(s.window)
    requires Quiet(s, barrier)
    ensures Quiet(RateStep(cfg, s, sid), barrier)
  {
  }

  lemma SlotKeepsQuiet(cfg: Config, s: State, sid: SessionId, barrier: int)
    requires sid in s.sessions && s.sessions[sid].phase.AwaitingSlot? && s.freeSlots > 0 && Quiet(s, barrier)
    ensures Quiet(SlotStep(cfg, s, sid), barrier)
  {
  }

  lemma StepKeepsQuiet(cfg: Config, before: State, e: Event, barrier: int)
    requires GateOk(cfg, before) && Enabled(cfg, before, e) && Quiet(before, barrier)
    ensures Quiet(Step(cfg, before, e), barrier)
  {
    var sid, s := e.sid, before.(now := e.at);
    match e.action {
      case Gate => GateKeepsQuiet(s, sid, barrier);
      case Retry(report) =>
        if Unresolved(s, sid) {
          FailAttemptKeepsQuiet(cfg, s, sid, PermitOf(s, sid), report, barrier);
        }
      case SleepDone => assert SessionOk(cfg, s.episode, sid, s.sessions[sid]);
      case RateSection => RateKeepsQuiet(cfg, s, sid, barrier);
      case SlotSection => SlotKeepsQuiet(cfg, s, sid, barrier);
      case _ =>
    }
  }

  lemma QuietBlocksClaims(cfg: Config, s: State, e: Event, barrier: int)
    requires Enabled(cfg, s, e) && Quiet(s, barrier) && OutcomeOf(cfg, s, e) == Claimed
    ensures barrier <= e.at
  {
  }

  lemma {:induction false} QuietLasts(cfg: Config, states: seq<State>, events: seq<Event>, i: nat, j: nat, barrier: int)
    requires IsRun(cfg, states, events) && i <= j < |states| && Quiet(states[i], barrier)
    ensures Quiet(states[j], barrier)
    decreases j - i
  {
    if i < j {
      Reachable(cfg, states, events, i);
      assert StepAt(cfg, states, events, i);
      StepKeepsQuiet(cfg, states[i], events[i], barrier);
      QuietLasts(cfg, states, events, i + 1, j, barrier);
    }
  }

  /** After a failure that opens, re-times or exhausts an episode, no session at all claims an attempt
      until the capped backoff, the provider's Retry-After and its reported reset window are over. */
  lemma QuietPeriod(cfg: Config, states: seq<State>, events: seq<Event>, i: nat, j: nat)
    requires IsRun(cfg, states, events) && i < j < |events|
    requires StepAt(cfg, states, events, i) && StepAt(cfg, states, events, j)
    requires Governs(cfg, states[i], events[i])
    requires OutcomeOf(cfg, states[j], events[j]) == Claimed
    ensures
      var error := events[i].action.report.error;
      var elapsed := events[j].at - events[i].at;
      && elapsed >= DelayOf(cfg, states[i], events[i])
      && elapsed >= CappedBackoff(cfg, states[i].sessions[events[i].sid].attemptsStarted)
      && (error.retryAfter.Some? ==> elapsed >= error.retryAfter.value)
      && (SignalOf(cfg, error).Some? && SignalOf(cfg, error).value.resetSeconds.Some? ==>
            elapsed >= SignalOf(cfg, error).value.resetSeconds.value)
  {
    var barrier := events[i].at + DelayOf(cfg, states[i], events[i]);
    Reachable(cfg, states, events, i);
    GoverningFailureQuiets(cfg, states[i], events[i]);
    QuietLasts(cfg, states, events, i + 1, j, barrier);
    QuietBlocksClaims(cfg, states[j], events[j], barrier);
  }

  // ---- Gate safety ----

  /** An attempt is claimed only with no episode open, or as the one live probe of the open,
      non-terminal episode, by its leader. */
  lemma ClaimsAreGated(cfg: Config, states: seq<State>, events: seq<Event>, j: nat)
    requires IsRun(cfg, states, events) && j < |events|
    requires StepAt(cfg, states, events, j) && OutcomeOf(cfg, states[j], events[j]) == Claimed
    ensures
      var s, sid := states[j], events[j].sid;
      || s.episode.None?
      || (&& s.episode.value.terminalUntil.None?
          && s.episode.value.leader == Some(sid)
          && s.episode.value.probeActive
          && HoldsProbe(s.sessions[sid].phase, s.episode.value.generation)
          && forall i, g | i in s.sessions && HoldsProbe(s.sessions[i].phase, g) ::
               i == sid && g == s.episode.value.generation)
  {
    Reachable(cfg, states, events, j);
    var s, sid := states[j], events[j].sid;
    if s.episode.Some? {
      forall i, g | i in s.sessions && HoldsProbe(s.sessions[i].phase, g)
        ensures i == sid && g == s.episode.value.generation
      {
        assert SessionOk(cfg, s.episode, i, s.sessions[i]);
      }
    }
  }

  /** In every reachable state `probe_active` is set exactly when a session holds an unresolved probe
      permit; that session is the leader, the permit is of the open generation and is still current, and
      there is only one. */
  lemma ProbeActiveMeansOneProbe(cfg: Config, states: seq<State>, events: seq<Event>, n: nat)
    requires IsRun(cfg, states, events) && n < |states|
    ensures
      var s := states[n];
      && ((s.episode.Some? && s.episode.value.probeActive) <==>
          (exists i, g :: i in s.sessions && HoldsProbe(s.sessions[i].phase, g)))
      && (forall i, g | i in s.sessions && HoldsProbe(s.sessions[i].phase, g) ::
            PermitIsCurrent(s, i, Probe(g)) && s.episode.value.leader == Some(i))
  {
    Reachable(cfg, states, events, n);
    var s := states[n];
    forall i, g | i in s.sessions && HoldsProbe(s.sessions[i].phase, g)
      ensures PermitIsCurrent(s, i, Probe(g)) && s.episode.value.leader == Some(i)
    {
      assert SessionOk(cfg, s.episode, i, s.sessions[i]);
    }
    if s.episode.Some? && s.episode.value.probeActive {
      var leader := s.episode.value.leader.value;
      assert HoldsProbe(s.sessions[leader].phase, s.episode.value.generation);
    }
  }

  /** However late the outcome of a normal attempt comes, it leaves an open episode's leader, timing,
      error and terminal state alone; at most its own session joins the waiters. */
  lemma LateOutcomeLeavesEpisode(cfg: Config, states: seq<State>, events: seq<Event>, n: nat)
    requires IsRun(cfg, states, events) && n < |events|
    requires states[n].episode.Some? && events[n].sid in states[n].sessions
    requires
      var phase := states[n].sessions[events[n].sid].phase;
      phase.Attempting? && phase.permit.Normal?
    ensures
      var s, after := states[n], states[n + 1];
      && after.episode.Some?
      && after.episode.value.(waiters := {}) == s.episode.value.(waiters := {})
      && s.episode.value.waiters <= after.episode.value.waiters <= s.episode.value.waiters + {events[n].sid}
      && after.nextGeneration == s.nextGeneration
  {
    Reachable(cfg, states, events, n);
    assert StepAt(cfg, states, events, n);
  }

  /** An episode that is over, or never was, under that number. */
  ghost predicate Gone(s: State, generation: nat) {
    generation < s.nextGeneration && !(s.episode.Some? && s.episode.value.generation == generation)
  }

  lemma StepKeepsGone(cfg: Config, before: State, e: Event, generation: nat)
    requires GateOk(cfg, before) && Enabled(cfg, before, e)
    ensures Gone(before, generation) ==> Gone(Step(cfg, before, e), generation)
    ensures before.nextGeneration <= Step(cfg, before, e).nextGeneration
    ensures
      var after := Step(cfg, before, e);
      after.episode.Some? && !(before.episode.Some? && before.episode.value.generation == after.episode.value.generation)
      ==> after.episode.value.generation == before.nextGeneration
  {
  }

  lemma {:induction false} GoneLasts(cfg: Config, states: seq<State>, events: seq<Event>, i: nat, j: nat, generation: nat)
    requires IsRun(cfg, states, events) && i <= j < |states|
    ensures Gone(states[i], generation) ==> Gone(states[j], generation)
    ensures states[i].nextGeneration <= states[j].nextGeneration
    decreases j - i
  {
    if i < j {
      Reachable(cfg, states, events, i);
      assert StepAt(cfg, states, events, i);
      StepKeepsGone(cfg, states[i], events[i], generation);
      GoneLasts(cfg, states, events, i + 1, j, generation);
    }
  }

  /** Generations strictly increase and an episode that ended never comes back. */
  lemma GenerationsIncrease(cfg: Config, states: seq<State>, events: seq<Event>, i: nat, k: nat, j: nat)
    requires IsRun(cfg, states, events) && i <= k <= j < |states|
    requires states[i].episode.Some? && states[j].episode.Some?
    ensures states[i].episode.value.generation <= states[j].episode.value.generation
    ensures states[i].episode.value.generation == states[j].episode.value.generation ==>
              states[k].episode.Some? && states[k].episode.value.generation == states[i].episode.value.generation
    decreases j - i
  {
    Reachable(cfg, states, events, i);
    var generation := states[i].episode.value.generation;
    if i < j {
      assert StepAt(cfg, states, events, i);
      StepKeepsGone(cfg, states[i], events[i], generation);
      if states[i + 1].episode.Some? {
        GenerationsIncrease(cfg, states, events, i + 1, if k > i then k else i + 1, j);
      } else {
        FreshAfter(cfg, states, events, i + 1, j);
      }
    }
  }

  /** Once no episode is open, the next one to be seen is a new one. */
  lemma {:induction false} FreshAfter(cfg: Config, states: seq<State>, events: seq<Event>, i: nat, j: nat)
    requires IsRun(cfg, states, events) && i <= j < |states|
    requires states[i].episode.None? && states[j].episode.Some?
    ensures states[j].episode.value.generation >= states[i].nextGeneration
  {
    if states[j].episode.value.generation < states[i].nextGeneration {
      GoneLasts(cfg, states, events, i, j, states[j].episode.value.generation);
    }
  }

  // ---- Terminal fan-out ----

  /** The failure that ends an episode for good: out of budget or quota, and it governs the gate. */
  predicate Exhausts(cfg: Config, s: State, e: Event)
    requires Enabled(cfg, s, e)
  {
    Governs(cfg, s, e) && !CanRetry(cfg, s, e.sid, e.action.report.error)
  }

  /** The session carries the error of an exhausted episode and has not yet been told. */
  ghost predicate Doomed(s: State, sid: SessionId, error: ProviderError) {
    && sid in s.sessions
    && s.sessions[sid].terminalError == Some(error)
    && BeforeGate(s.sessions[sid].phase)
  }

  lemma ExhaustionDooms(cfg: Config, s: State, e: Event, waiter: SessionId)
    requires GateOk(cfg, s) && Enabled(cfg, s, e) && Exhausts(cfg, s, e)
    requires s.episode.Some? && waiter in s.episode.value.waiters
    ensures Doomed(Step(cfg, s, e), waiter, e.action.report.error)
  {
    assert WaitersOk(s.episode.value, s.sessions);
  }

  lemma StepKeepsDoomed(cfg: Config, s: State, e: Event, sid: SessionId, error: ProviderError)
    requires GateOk(cfg, s) && Enabled(cfg, s, e) && Doomed(s, sid, error)
    ensures Doomed(Step(cfg, s, e), sid, error)
    ensures e.sid == sid ==> OutcomeOf(cfg, s, e) != Claimed
    ensures e.sid == sid && e.action.Gate? ==> OutcomeOf(cfg, s, e) == RecoveryExhausted(error)
  {
    if e.sid == sid {
      OwnStepKeepsDoomed(cfg, s, e, error);
    } else {
      OtherStepKeepsDoomed(cfg, s, e, sid, error);
    }
  }

  lemma OwnStepKeepsDoomed(cfg: Config, s: State, e: Event, error: ProviderError)
    requires GateOk(cfg, s) && Enabled(cfg, s, e) && Doomed(s, e.sid, error)
    ensures Doomed(Step(cfg, s, e), e.sid, error)
    ensures OutcomeOf(cfg, s, e) != Claimed
    ensures e.action.Gate? ==> OutcomeOf(cfg, s, e) == RecoveryExhausted(error)
  {
    assert SessionOk(cfg, s.episode, e.sid, s.sessions[e.sid]);
  }

  lemma OtherStepKeepsDoomed(cfg: Config, s: State, e: Event, sid: SessionId, error: ProviderError)
    requires GateOk(cfg, s) && Enabled(cfg, s, e) && Doomed(s, sid, error) && e.sid != sid
    ensures Doomed(Step(cfg, s, e), sid, error)
  {
    StepLeavesTheOthers(cfg, s, e);
    if e.action.Retry? {
      FailureLeavesDoomed(cfg, s.(now := e.at), e.sid, e.action.report, sid);
    }
  }

  lemma FailureLeavesDoomed(cfg: Config, s: State, from: SessionId, report: FailureReport, sid: SessionId)
    requires GateOk(cfg, s) && from in s.sessions && sid in s.sessions && from != sid
    requires s.sessions[from].phase.Attempting? && s.sessions[sid].terminalError.Some?
    ensures
      var after := FailAttempt(cfg, s, from, PermitOf(s, from), report);
      sid in after.sessions && after.sessions[sid].terminalError == s.sessions[sid].terminalError
  {
  }

  lemma {:induction false} DoomedLasts(
    cfg: Config, states: seq<State>, events: seq<Event>, i: nat, j: nat, sid: SessionId, error: ProviderError)
    requires IsRun(cfg, states, events) && i <= j < |states| && Doomed(states[i], sid, error)
    ensures Doomed(states[j], sid, error)
    decreases j - i
  {
    if i < j {
      Reachable(cfg, states, events, i);
      assert StepAt(cfg, states, events, i);
      StepKeepsDoomed(cfg, states[i], events[i], sid, error);
      DoomedLasts(cfg, states, events, i + 1, j, sid, error);
    }
  }

  /** When an episode exhausts, every session then waiting for it never claims again in the rest of the
      run, and each of its later passes through the gate raises that episode's error. */
  lemma TerminalFanOut(cfg: Config, states: seq<State>, events: seq<Event>, i: nat, j: nat, waiter: SessionId)
    requires IsRun(cfg, states, events) && i < j < |events|
    requires StepAt(cfg, states, events, i) && StepAt(cfg, states, events, j)
    requires Exhausts(cfg, states[i], events[i])
    requires states[i].episode.Some? && waiter in states[i].episode.value.waiters
    requires events[j].sid == waiter
    ensures OutcomeOf(cfg, states[j], events[j]) != Claimed
    ensures events[j].action.Gate? ==>
              OutcomeOf(cfg, states[j], events[j]) == RecoveryExhausted(events[i].action.report.error)
  {
    var error := events[i].action.report.error;
    Reachable(cfg, states, events, i);
    ExhaustionDooms(cfg, states[i], events[i], waiter);
    DoomedLasts(cfg, states, events, i + 1, j, waiter, error);
    Reachable(cfg, states, events, j);
    StepKeepsDoomed(cfg, states[j], events[j], waiter, error);
  }

  /** A retryable failure that comes in while a terminal episode is in force is told to retry, yet it is
      doomed to that episode's error like the waiters were. */
  lemma LateFailureSharesTerminalError(cfg: Config, states: seq<State>, events: seq<Event>, n: nat)
    requires IsRun(cfg, states, events) && n < |events| && StepAt(cfg, states, events, n)
    requires states[n].episode.Some? && states[n].episode.value.terminalUntil.Some?
    requires events[n].action.Retry? && OutcomeOf(cfg, states[n], events[n]) == MayRetry(true)
    ensures Doomed(states[n + 1], events[n].sid, states[n].episode.value.lastError)
  {
    Reachable(cfg, states, events, n);
  }

  /** A leader never waits for itself, and a terminal episode has no leader, probe or waiters and
      changes only by expiring into a fresh generation led by the session that finds it expired. */
  lemma TerminalIsFinal(cfg: Config, states: seq<State>, events: seq<Event>, n: nat)
    requires IsRun(cfg, states, events) && n < |events| && states[n].episode.Some?
    ensures
      var ep := states[n].episode.value;
      ep.leader.Some? ==> ep.leader.value !in ep.waiters
    ensures
      var s, e, after := states[n], events[n], states[n + 1];
      var ep := s.episode.value;
      ep.terminalUntil.Some? ==>
        && ep.leader.None? && !ep.probeActive && ep.waiters == {}
        && (|| after.episode == s.episode
            || (&& e.action.Gate?
                && ep.terminalUntil.value <= e.at
                && after.episode.Some?
                && after.episode.value.generation == s.nextGeneration
                && after.episode.value.terminalUntil.None?
                && after.episode.value.leader == Some(e.sid)))
  {
    Reachable(cfg, states, events, n);
    assert StepAt(cfg, states, events, n);
    var s, e := states[n], events[n];
    if s.episode.value.terminalUntil.Some? && e.sid in s.sessions {
      assert SessionOk(cfg, s.episode, e.sid, s.sessions[e.sid]);
      assert s.episode.value.waiters - {e.sid} == s.episode.value.waiters;
    }
  }

  // ---- Takeover ----

  /** The leader gives up: cancelled in its sleep or between permit and claim, or closing its probe
      unresolved. */
  predicate GivesUpLead(s: State, e: Event) {
    && s.episode.Some? && s.episode.value.leader == Some(e.sid) && e.sid in s.sessions
    && (|| e.action.CancelSleep?
        || e.action.CancelPermit?
        || (e.action.Close? && Holds(s, e.sid, e.action.attempt) && Unresolved(s, e.sid)))
  }

  /** A session passes the gate with nothing held against it. */
  predicate EntersFreely(s: State, e: Event) {
    e.action.Gate? && e.sid in s.sessions && s.sessions[e.sid].terminalError.None?
  }

  ghost predicate Leaderless(s: State, generation: nat) {
    && s.episode.Some?
    && s.episode.value.generation == generation
    && s.episode.value.leader.None?
    && s.episode.value.terminalUntil.None?
    && !s.episode.value.probeActive
  }

  lemma GivingUpLeavesNoLeader(cfg: Config, s: State, e: Event)
    requires Inv(cfg, s) && Enabled(cfg, s, e) && GivesUpLead(s, e)
    ensures Leaderless(Step(cfg, s, e), s.episode.value.generation)
    ensures e.sid in Step(cfg, s, e).sessions && Step(cfg, s, e).sessions[e.sid].phase.Idle?
  {
    assert SessionOk(cfg, s.episode, e.sid, s.sessions[e.sid]);
  }

  lemma StepKeepsLeaderless(cfg: Config, s: State, e: Event, generation: nat)
    requires GateOk(cfg, s) && Enabled(cfg, s, e) && Leaderless(s, generation) && !EntersFreely(s, e)
    ensures Leaderless(Step(cfg, s, e), generation)
  {
    if e.sid in s.sessions {
      assert SessionOk(cfg, s.episode, e.sid, s.sessions[e.sid]);
    }
  }

  lemma {:induction false} LeaderlessLasts(
    cfg: Config, states: seq<State>, events: seq<Event>, i: nat, j: nat, generation: nat)
    requires IsRun(cfg, states, events) && i <= j < |states| && Leaderless(states[i], generation)
    requires forall k :: i <= k < j ==> !EntersFreely(states[k], events[k])
    ensures Leaderless(states[j], generation)
    decreases j - i
  {
    if i < j {
      Reachable(cfg, states, events, i);
      assert StepAt(cfg, states, events, i);
      StepKeepsLeaderless(cfg, states[i], events[i], generation);
      LeaderlessLasts(cfg, states, events, i + 1, j, generation);
    }
  }

  /** When the leader gives up, the episode stays open without a leader, through whatever else happens,
      until the next session that has not failed passes the gate: that one leads it, under the same
      generation. */
  lemma CancelledLeaderIsReplaced(cfg: Config, states: seq<State>, events: seq<Event>, i: nat, j: nat)
    requires IsRun(cfg, states, events) && i < j < |events|
    requires GivesUpLead(states[i], events[i]) && EntersFreely(states[j], events[j])
    requires forall k :: i < k < j ==> !EntersFreely(states[k], events[k])
    ensures
      var s, left, taken := states[i], states[j], states[j + 1];
      && Leaderless(left, s.episode.value.generation)
      && taken.episode.Some?
      && taken.episode.value.generation == s.episode.value.generation
      && taken.episode.value.leader == Some(events[j].sid)
      && events[j].sid !in taken.episode.value.waiters
  {
    Reachable(cfg, states, events, i);
    assert StepAt(cfg, states, events, i);
    GivingUpLeavesNoLeader(cfg, states[i], events[i]);
    LeaderlessLasts(cfg, states, events, i + 1, j, states[i].episode.value.generation);
    assert StepAt(cfg, states, events, j);
  }

  // ---- Budget and slots ----

  /** The `k`-th event does not claim an attempt of the session. */
  ghost predicate NoClaim(cfg: Config, states: seq<State>, events: seq<Event>, sid: SessionId, k: nat)
    requires k < |events| < |states|
  {
    Enabled(cfg, states[k], events[k]) && !(events[k].sid == sid && OutcomeOf(cfg, states[k], events[k]) == Claimed)
  }

  /** How many attempts a session claimed in the first `n` events. */
  function Claims(cfg: Config, states: seq<State>, events: seq<Event>, sid: SessionId, n: nat): nat
    requires n <= |events| < |states|
    requires forall i :: 0 <= i < n ==> Enabled(cfg, states[i], events[i])
  {
    if n == 0 then 0
    else
      Claims(cfg, states, events, sid, n - 1)
      + if events[n - 1].sid == sid && OutcomeOf(cfg, states[n - 1], events[n - 1]) == Claimed then 1 else 0
  }

  lemma {:induction false} ClaimsAreCounted(cfg: Config, states: seq<State>, events: seq<Event>, sid: SessionId, n: nat)
    requires IsRun(cfg, states, events) && n <= |events|
    requires forall i :: 0 <= i < n ==> Enabled(cfg, states[i], events[i])
    ensures Claims(cfg, states, events, sid, n) ==
              if sid in states[n].sessions then states[n].sessions[sid].attemptsStarted else 0
  {
    if n > 0 {
      ClaimsAreCounted(cfg, states, events, sid, n - 1);
      Reachable(cfg, states, events, n - 1);
      assert StepAt(cfg, states, events, n - 1);
      StepMovesOnlyItsSession(cfg, states[n - 1], events[n - 1]);
    }
  }

  /** How many of its attempts a session closed in the first `n` events. */
  function Closes(states: seq<State>, events: seq<Event>, sid: SessionId, n: nat): nat
    requires n <= |events| < |states|
  {
    if n == 0 then 0
    else
      Closes(states, events, sid, n - 1)
      + if events[n - 1].sid == sid && ClosesAttempt(states[n - 1], events[n - 1]) then 1 else 0
  }

  /** Every claimed attempt gives its slot back exactly once, however often it is closed: the attempts a
      session claimed are those it closed and the one it may still hold. */
  lemma {:induction false} SlotsReturnOnce(cfg: Config, states: seq<State>, events: seq<Event>, sid: SessionId, n: nat)
    requires IsRun(cfg, states, events) && n <= |events|
    requires forall i :: 0 <= i < n ==> Enabled(cfg, states[i], events[i])
    ensures Claims(cfg, states, events, sid, n) ==
              Closes(states, events, sid, n)
              + if sid in states[n].sessions && states[n].sessions[sid].phase.Attempting? then 1 else 0
  {
    if n > 0 {
      SlotsReturnOnce(cfg, states, events, sid, n - 1);
      Reachable(cfg, states, events, n - 1);
      assert StepAt(cfg, states, events, n - 1);
      StepMovesOnlyItsSession(cfg, states[n - 1], events[n - 1]);
      StepMovesSlots(cfg, states[n - 1], events[n - 1]);
    }
  }

  /** The session's `attempt`-th attempt is over. */
  ghost predicate Over(s: State, sid: SessionId, attempt: nat) {
    sid in s.sessions && attempt <= s.sessions[sid].attemptsStarted && !Holds(s, sid, attempt)
  }

  lemma StepKeepsOver(cfg: Config, s: State, e: Event, sid: SessionId, attempt: nat)
    requires GateOk(cfg, s) && Enabled(cfg, s, e)
    requires Over(s, sid, attempt) || (e.sid == sid && e.action == Close(attempt))
    ensures Over(Step(cfg, s, e), sid, attempt)
  {
    StepMovesOnlyItsSession(cfg, s, e);
    StepMovesSlots(cfg, s, e);
  }

  lemma {:induction false} OverLasts(
    cfg: Config, states: seq<State>, events: seq<Event>, i: nat, j: nat, sid: SessionId, attempt: nat)
    requires IsRun(cfg, states, events) && i <= j < |states| && Over(states[i], sid, attempt)
    ensures Over(states[j], sid, attempt)
    decreases j - i
  {
    if i < j {
      Reachable(cfg, states, events, i);
      assert StepAt(cfg, states, events, i);
      StepKeepsOver(cfg, states[i], events[i], sid, attempt);
      OverLasts(cfg, states, events, i + 1, j, sid, attempt);
    }
  }

  /** Closing an attempt again changes nothing, whatever happened in between, even while a later attempt
      of the session is open. */
  lemma ClosingAgainChangesNothing(cfg: Config, states: seq<State>, events: seq<Event>, i: nat, j: nat)
    requires IsRun(cfg, states, events) && i < j < |events|
    requires events[i].action.Close? && events[j].sid == events[i].sid && events[j].action == events[i].action
    ensures states[j + 1] == states[j].(now := events[j].at)
  {
    var sid, attempt := events[i].sid, events[i].action.attempt;
    Reachable(cfg, states, events, i);
    assert StepAt(cfg, states, events, i);
    StepKeepsOver(cfg, states[i], events[i], sid, attempt);
    OverLasts(cfg, states, events, i + 1, j, sid, attempt);
    assert StepAt(cfg, states, events, j);
  }

  /** An outcome reported on the session's attempt. */
  predicate Reports(e: Event) {
    e.action.Succeeded? || e.action.RetryImmediately? || e.action.Retry?
  }

  /** The first outcome reported on an attempt is the only one: a second report before the session claims
      its next attempt changes nothing and never says that the caller may retry. */
  lemma FirstReportCounts(cfg: Config, states: seq<State>, events: seq<Event>, i: nat, j: nat)
    requires IsRun(cfg, states, events) && i < j < |events|
    requires StepAt(cfg, states, events, i) && StepAt(cfg, states, events, j)
    requires Reports(events[i]) && Reports(events[j]) && events[j].sid == events[i].sid
    requires forall k :: i < k < j ==> NoClaim(cfg, states, events, events[i].sid, k)
    ensures states[j + 1] == states[j].(now := events[j].at)
    ensures OutcomeOf(cfg, states[j], events[j]) != MayRetry(true)
  {
    ReportLeavesNothingOpen(cfg, states[i], events[i]);
    ReportedLasts(cfg, states, events, i + 1, j, events[i].sid);
    ReportChangesNothing(cfg, states[j], events[j]);
  }

  lemma ReportLeavesNothingOpen(cfg: Config, s: State, e: Event)
    requires Enabled(cfg, s, e) && Reports(e)
    ensures e.sid in Step(cfg, s, e).sessions && !Unresolved(Step(cfg, s, e), e.sid)
  {
  }

  lemma ReportChangesNothing(cfg: Config, s: State, e: Event)
    requires Enabled(cfg, s, e) && Reports(e) && !Unresolved(s, e.sid)
    ensures Step(cfg, s, e) == s.(now := e.at) && OutcomeOf(cfg, s, e) != MayRetry(true)
  {
  }

  lemma StepKeepsReported(cfg: Config, s: State, e: Event, sid: SessionId)
    requires Enabled(cfg, s, e) && sid in s.sessions
    requires !Unresolved(s, sid) && !(e.sid == sid && OutcomeOf(cfg, s, e) == Claimed)
    ensures sid in Step(cfg, s, e).sessions && !Unresolved(Step(cfg, s, e), sid)
  {
  }

  lemma {:induction false} ReportedLasts(cfg: Config, states: seq<State>, events: seq<Event>, i: nat, j: nat, sid: SessionId)
    requires IsRun(cfg, states, events) && i <= j < |states| && sid in states[i].sessions
    requires forall k :: i <= k < j ==> NoClaim(cfg, states, events, sid, k)
    requires !Unresolved(states[i], sid)
    ensures sid in states[j].sessions && !Unresolved(states[j], sid)
    decreases j - i
  {
    if i < j {
      assert NoClaim(cfg, states, events, sid, i) && StepAt(cfg, states, events, i);
      StepKeepsReported(cfg, states[i], events[i], sid);
      ReportedLasts(cfg, states, events, i + 1, j, sid);
    }
  }

  /** In any run a session claims at most `maxAttempts` attempts, a granted slot never finds the budget
      spent, and free slots plus unclosed attempts always equal the configured concurrency. */
  lemma BudgetAndSlots(cfg: Config, states: seq<State>, events: seq<Event>, sid: SessionId, n: nat)
    requires IsRun(cfg, states, events) && n <= |events|
    requires forall i :: 0 <= i < n ==> Enabled(cfg, states[i], events[i])
    ensures Claims(cfg, states, events, sid, n) <= cfg.maxAttempts
    ensures states[n].freeSlots + |Holding(states[n].sessions)| == cfg.maxConcurrency
    ensures n < |events| && StepAt(cfg, states, events, n) && events[n].action.SlotSection? ==>
              OutcomeOf(cfg, states[n], events[n]) != BudgetError
  {
    ClaimsAreCounted(cfg, states, events, sid, n);
    Reachable(cfg, states, events, n);
    if sid in states[n].sessions {
      assert SessionOk(cfg, states[n].episode, sid, states[n].sessions[sid]);
    }
    if n < |events| && events[n].sid in states[n].sessions {
      assert SessionOk(cfg, states[n].episode, events[n].sid, states[n].sessions[events[n].sid]);
    }
  }

  /** The rate promise holds inside admission too: every window of time holds at most the configured
      number of recorded acquisitions, whoever made them. */
  lemma RateIsBounded(cfg: Config, states: seq<State>, events: seq<Event>, n: nat, from: int)
    requires IsRun(cfg, states, events) && n < |states|
    ensures SlidingWindow.CountIn(states[n].window.history, from, from + cfg.limits.rateWindow) <= cfg.limits.rateLimit
  {
    Reachable(cfg, states, events, n);
    SlidingWindow.SpacedBoundsCount(cfg.limits, states[n].window.history, from);
  }

  /** Whenever no session is inside an attempt or a wait, every slot is free and no probe is left behind. */
  lemma NothingLeftBehind(cfg: Config, states: seq<State>, events: seq<Event>, n: nat)
    requires IsRun(cfg, states, events) && n < |states|
    requires forall i | i in states[n].sessions :: states[n].sessions[i].phase.Idle?
    ensures states[n].freeSlots == cfg.maxConcurrency
    ensures states[n].episode.Some? ==> !states[n].episode.value.probeActive
  {
    Reachable(cfg, states, events, n);
    assert Holding(states[n].sessions) == {};
  }

  lemma {:induction false} BudgetKeptBetweenClaims(
    cfg: Config, states: seq<State>, events: seq<Event>, i: nat, j: nat, sid: SessionId)
    requires IsRun(cfg, states, events) && i <= j < |states| && sid in states[i].sessions
    requires forall k :: i <= k < j ==> NoClaim(cfg, states, events, sid, k)
    ensures sid in states[j].sessions
    ensures states[j].sessions[sid].attemptsStarted == states[i].sessions[sid].attemptsStarted
    decreases j - i
  {
    if i < j {
      Reachable(cfg, states, events, i);
      assert NoClaim(cfg, states, events, sid, i) && StepAt(cfg, states, events, i);
      StepMovesOnlyItsSession(cfg, states[i], events[i]);
      BudgetKeptBetweenClaims(cfg, states, events, i + 1, j, sid);
    }
  }

  /** A caller that was told to retry finds budget left when it next opens an attempt, so the retry loop
      never meets the "session is exhausted" error. */
  lemma ToldToRetryMayOpen(cfg: Config, states: seq<State>, events: seq<Event>, i: nat, j: nat)
    requires IsRun(cfg, states, events) && i < j < |events|
    requires StepAt(cfg, states, events, i) && OutcomeOf(cfg, states[i], events[i]) == MayRetry(true)
    requires forall k :: i < k < j ==> NoClaim(cfg, states, events, events[i].sid, k)
    requires StepAt(cfg, states, events, j) && events[j].sid == events[i].sid && events[j].action.OpenAttempt?
    ensures OutcomeOf(cfg, states[j], events[j]) == Silent
  {
    var sid := events[i].sid;
    Reachable(cfg, states, events, i);
    StepMovesOnlyItsSession(cfg, states[i], events[i]);
    BudgetKeptBetweenClaims(cfg, states, events, i + 1, j, sid);
  }
}
