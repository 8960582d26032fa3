/** What each section of provider admission achieves, in every state of every run, said in the fields of
    the state: when a failure is retried, who leads, probes, waits or sleeps, and what an outcome does. */
module AdmissionOperations {
  import opened Options
  import opened AdmissionSpec
  import opened AdmissionInvariant
  import opened AdmissionRuns
  import SlidingWindow

  /** A failure may be retried: policy says so, budget is left after `claimed` attempts, and the provider
      has not reported that its quota is used up, where such reports are heeded. */
  predicate RetryAllowed(cfg: Config, claimed: nat, report: FailureReport) {
    && report.retryable
    && claimed < cfg.maxAttempts
    && !(&& cfg.anticipation
         && report.error.signal.Some?
         && (|| report.error.signal.value.remainingTokens == Some(0)
             || report.error.signal.value.remainingRequests == Some(0)))
  }

  /** A failure is answered with a retry if and only if that is allowed after the attempts the session has
      claimed so far in the run. */
  lemma FailureIsAnswered(cfg: Config, states: seq<State>, events: seq<Event>, n: nat)
    requires IsRun(cfg, states, events) && n < |events| && StepAt(cfg, states, events, n)
    requires events[n].action.Retry? && Unresolved(states[n], events[n].sid)
    requires forall i :: 0 <= i < n ==> Enabled(cfg, states[i], events[i])
    ensures
      var claimed := Claims(cfg, states, events, events[n].sid, n);
      OutcomeOf(cfg, states[n], events[n]) == MayRetry(RetryAllowed(cfg, claimed, events[n].action.report))
  {
    ClaimsAreCounted(cfg, states, events, events[n].sid, n);
  }

  /** How long a failure closes the gate. */
  function Delay(cfg: Config, claimed: nat, report: FailureReport): nat {
    RetryDelay(cfg, report.error, claimed,
               if RetryAllowed(cfg, claimed, report) then report.jitter else report.terminalJitter)
  }

  /** A failure with no episode open begins one with a new number: led by the session if it may retry,
      terminal otherwise. */
  ghost predicate BeginsEpisode(s: State, e: Event, after: State, allowed: bool, delay: nat)
    requires e.action.Retry?
  {
    after.episode == Some(Episode(
      s.nextGeneration,
      if allowed then Some(e.sid) else None,
      if allowed then e.at + delay else e.at,
      e.action.report.error, {}, false,
      if allowed then None else Some(e.at + delay)))
  }

  /** The failure of the probe itself keeps the episode: the session leads it on, later, if it may retry;
      otherwise it is terminal and its waiters fail with the error. */
  ghost predicate DecidesEpisode(s: State, e: Event, after: State, allowed: bool, delay: nat)
    requires e.action.Retry? && s.episode.Some?
  {
    var ep, error := s.episode.value, e.action.report.error;
    && after.episode == Some(Episode(
         ep.generation,
         if allowed then Some(e.sid) else None,
         if allowed then e.at + delay else ep.readyAt,
         error,
         if allowed then ep.waiters else {},
         false,
         if allowed then None else Some(e.at + delay)))
    && (forall i | i in s.sessions :: i in after.sessions &&
          after.sessions[i].terminalError ==
            if !allowed && i in ep.waiters then Some(error) else s.sessions[i].terminalError)
  }

  /** The failure of a normal attempt while an episode is open leaves the episode alone, except that a
      session that may retry waits for it, or shares its error if it is terminal. */
  ghost predicate JoinsEpisode(s: State, e: Event, after: State, allowed: bool)
    requires s.episode.Some? && e.sid in s.sessions
  {
    var ep := s.episode.value;
    && after.episode ==
         Some(if allowed && ep.terminalUntil.None? then ep.(waiters := ep.waiters + {e.sid}) else ep)
    && e.sid in after.sessions
    && after.sessions[e.sid].terminalError ==
         if allowed && ep.terminalUntil.Some? then Some(ep.lastError) else s.sessions[e.sid].terminalError
  }

  /** What a failure does to the episode, for each permit and each episode it can meet. */
  lemma FailureMovesEpisode(cfg: Config, states: seq<State>, events: seq<Event>, n: nat)
    requires IsRun(cfg, states, events) && n < |events|
    requires events[n].action.Retry? && events[n].sid in states[n].sessions && Unresolved(states[n], events[n].sid)
    ensures
      var s, e, after := states[n], events[n], states[n + 1];
      var permit, claimed := s.sessions[e.sid].phase.permit, s.sessions[e.sid].attemptsStarted;
      var allowed, delay := RetryAllowed(cfg, claimed, e.action.report), Delay(cfg, claimed, e.action.report);
      && e.sid in after.sessions && after.sessions[e.sid].phase == Attempting(permit, true)
      && (permit.Probe? ==> s.episode.Some?)
      && (if !e.action.report.retryable then after.episode == if permit.Probe? then None else s.episode
          else if s.episode.None? then BeginsEpisode(s, e, after, allowed, delay)
          else if permit.Probe? then DecidesEpisode(s, e, after, allowed, delay)
          else JoinsEpisode(s, e, after, allowed))
  {
    Reachable(cfg, states, events, n);
    assert StepAt(cfg, states, events, n);
    var s, e := states[n], events[n];
    assert SessionOk(cfg, s.episode, e.sid, s.sessions[e.sid]);
    assert s.sessions[e.sid].phase.permit.Probe? ==> HoldsProbe(s.sessions[e.sid].phase, s.sessions[e.sid].phase.permit.generation);
    FailureMoves(cfg, s, e);
  }

  lemma FailureMoves(cfg: Config, s: State, e: Event)
    requires Enabled(cfg, s, e) && e.action.Retry? && Unresolved(s, e.sid)
    requires s.sessions[e.sid].phase.permit.Probe? ==> MatchingProbe(s, e.sid, s.sessions[e.sid].phase.permit)
    requires s.episode.Some? && s.episode.value.terminalUntil.Some? ==> s.episode.value.leader.None?
    ensures
      var after := Step(cfg, s, e);
      var permit, claimed := s.sessions[e.sid].phase.permit, s.sessions[e.sid].attemptsStarted;
      var allowed, delay := RetryAllowed(cfg, claimed, e.action.report), Delay(cfg, claimed, e.action.report);
      && e.sid in after.sessions && after.sessions[e.sid].phase == Attempting(permit, true)
      && (if !e.action.report.retryable then after.episode == if permit.Probe? then None else s.episode
          else if s.episode.None? then BeginsEpisode(s, e, after, allowed, delay)
          else if permit.Probe? then DecidesEpisode(s, e, after, allowed, delay)
          else JoinsEpisode(s, e, after, allowed))
  {
  }

  /** The other outcomes: a success closes the episode its probe was for and a correction lets the leader
      probe again at once; without a probe neither touches the episode. Closing without an outcome leaves
      the episode of a probe without a leader, to be probed at once. */
  lemma OutcomesMoveEpisode(cfg: Config, states: seq<State>, events: seq<Event>, n: nat)
    requires IsRun(cfg, states, events) && n < |events|
    requires events[n].sid in states[n].sessions && Unresolved(states[n], events[n].sid)
    requires events[n].action.Succeeded? || events[n].action.RetryImmediately? || ClosesAttempt(states[n], events[n])
    ensures
      var s, e, after := states[n], events[n], states[n + 1];
      var permit := s.sessions[e.sid].phase.permit;
      && e.sid in after.sessions
      && after.sessions[e.sid].phase == (if e.action.Close? then Idle else Attempting(permit, true))
      && (permit.Normal? ==> after.episode == s.episode)
      && (permit.Probe? ==>
            && s.episode.Some? && s.episode.value.generation == permit.generation
            && match e.action
               case Succeeded => after.episode.None?
               case RetryImmediately => after.episode == Some(s.episode.value.(probeActive := false, readyAt := e.at))
               case _ => after.episode == Some(s.episode.value.(leader := None, probeActive := false, readyAt := e.at)))
  {
    Reachable(cfg, states, events, n);
    assert StepAt(cfg, states, events, n);
    var s, e := states[n], events[n];
    assert SessionOk(cfg, s.episode, e.sid, s.sessions[e.sid]);
    assert s.sessions[e.sid].phase.permit.Probe? ==> HoldsProbe(s.sessions[e.sid].phase, s.sessions[e.sid].phase.permit.generation);
  }

  // ---- The gate ----

  /** At an open episode: its leader, or whoever finds it without one, probes once it is ready and sleeps
      until then; everybody else waits. */
  ghost predicate PassesEpisode(s: State, sid: SessionId, at: int, ep: Episode, after: State) {
    && sid in after.sessions && after.episode.Some?
    && if ep.leader.Some? && ep.leader.value != sid then
         && after.sessions[sid].phase == Waiting(ep.generation)
         && after.episode.value == ep.(waiters := ep.waiters + {sid})
       else
         && after.episode.value == ep.(leader := Some(sid), waiters := ep.waiters - {sid}, probeActive := at >= ep.readyAt)
         && after.sessions[sid].phase ==
              if at >= ep.readyAt then AwaitingRate(Probe(ep.generation)) else Sleeping(ep.generation, ep.readyAt)
  }

  /** One pass of the gate: a session that was failed gets its error; with no episode open there is nothing
      to wait for; a terminal episode in force raises its error; one that has expired gives way to a new
      one that the session leads and probes at once. */
  lemma GateDecides(cfg: Config, states: seq<State>, events: seq<Event>, n: nat)
    requires IsRun(cfg, states, events) && n < |events| && StepAt(cfg, states, events, n) && events[n].action.Gate?
    ensures
      var s, sid, at, after := states[n], events[n].sid, events[n].at, states[n + 1];
      var outcome := OutcomeOf(cfg, s, events[n]);
      && sid in s.sessions && sid in after.sessions
      && if s.sessions[sid].terminalError.Some? then
           && outcome == RecoveryExhausted(s.sessions[sid].terminalError.value)
           && after.sessions[sid].phase.Idle? && after.episode == s.episode
         else if s.episode.None? then
           outcome == Silent && after.sessions[sid].phase == AwaitingRate(Normal) && after.episode.None?
         else if s.episode.value.terminalUntil.Some? && at < s.episode.value.terminalUntil.value then
           && outcome == RecoveryExhausted(s.episode.value.lastError)
           && after.sessions[sid].phase.Idle? && after.episode == s.episode
         else if s.episode.value.terminalUntil.Some? then
           && outcome == Silent && after.sessions[sid].phase == AwaitingRate(Probe(s.nextGeneration))
           && after.episode ==
                Some(Episode(s.nextGeneration, Some(sid), at, s.episode.value.lastError, {}, true, None))
         else outcome == Silent && PassesEpisode(s, sid, at, s.episode.value, after)
  {
    Reachable(cfg, states, events, n);
    var s, sid := states[n], events[n].sid;
    assert SessionOk(cfg, s.episode, sid, s.sessions[sid]);
    if s.episode.Some? {
      assert s.episode.value.waiters - {sid} == s.episode.value.waiters || sid in s.episode.value.waiters;
      if s.episode.value.terminalUntil.Some? {
        assert {} - {sid} == s.episode.value.waiters;
      }
    }
  }

  /** Opening an attempt fails with the budget error exactly if the session has claimed all its attempts. */
  lemma OpeningNeedsBudget(cfg: Config, states: seq<State>, events: seq<Event>, n: nat)
    requires IsRun(cfg, states, events) && n < |events| && StepAt(cfg, states, events, n)
    requires events[n].action.OpenAttempt?
    requires forall i :: 0 <= i < n ==> Enabled(cfg, states[i], events[i])
    ensures
      var sid, after := events[n].sid, states[n + 1];
      var spent := Claims(cfg, states, events, sid, n) == cfg.maxAttempts;
      && OutcomeOf(cfg, states[n], events[n]) == (if spent then BudgetError else Silent)
      && sid in after.sessions && after.sessions[sid].phase == if spent then Idle else AtGate
  {
    ClaimsAreCounted(cfg, states, events, events[n].sid, n);
    Reachable(cfg, states, events, n);
    assert SessionOk(cfg, states[n].episode, events[n].sid, states[n].sessions[events[n].sid]);
  }

  /** A wait that ends: a woken waiter passes the gate again; a cancelled one is idle and no longer among
      the waiters of the episode it waited for. */
  lemma WaitersLeave(cfg: Config, states: seq<State>, events: seq<Event>, n: nat)
    requires IsRun(cfg, states, events) && n < |events| && StepAt(cfg, states, events, n)
    requires events[n].action.Wake? || events[n].action.CancelWait?
    ensures
      var s, e, after := states[n], events[n], states[n + 1];
      && e.sid in s.sessions && e.sid in after.sessions && s.sessions[e.sid].phase.Waiting?
      && var mine := s.episode.Some? && s.episode.value.generation == s.sessions[e.sid].phase.generation;
         && after.sessions[e.sid].phase == (if e.action.Wake? then AtGate else Idle)
         && after.episode ==
              if e.action.CancelWait? && mine then Some(s.episode.value.(waiters := s.episode.value.waiters - {e.sid}))
              else s.episode
  {
    Reachable(cfg, states, events, n);
    var s, e := states[n], events[n];
    assert SessionOk(cfg, s.episode, e.sid, s.sessions[e.sid]);
  }

  /** A leader whose sleep is over always still leads its episode, and probes it; one that is cancelled in
      its sleep gives up the lead and changes nothing else. */
  lemma SleepsEnd(cfg: Config, states: seq<State>, events: seq<Event>, n: nat)
    requires IsRun(cfg, states, events) && n < |events| && StepAt(cfg, states, events, n)
    requires events[n].action.SleepDone? || events[n].action.CancelSleep?
    ensures
      var s, e, after := states[n], events[n], states[n + 1];
      && e.sid in s.sessions && e.sid in after.sessions
      && s.episode.Some? && s.episode.value.leader == Some(e.sid)
      && if e.action.SleepDone? then
           && after.sessions[e.sid].phase == AwaitingRate(Probe(s.episode.value.generation))
           && after.episode == Some(s.episode.value.(probeActive := true))
           && e.at >= s.episode.value.readyAt
         else after.sessions[e.sid].phase.Idle? && after.episode == Some(s.episode.value.(leader := None))
  {
    Reachable(cfg, states, events, n);
    var s, e := states[n], events[n];
    assert SessionOk(cfg, s.episode, e.sid, s.sessions[e.sid]);
  }

  /** A session cancelled between permit and claim is idle; a probe's episode is left without a leader, to
      be probed at once, and without a probe the episode is not touched. */
  lemma PermitsAreGivenBack(cfg: Config, states: seq<State>, events: seq<Event>, n: nat)
    requires IsRun(cfg, states, events) && n < |events| && StepAt(cfg, states, events, n)
    requires events[n].action.CancelPermit?
    ensures
      var s, e, after := states[n], events[n], states[n + 1];
      && e.sid in s.sessions && e.sid in after.sessions && after.sessions[e.sid].phase.Idle?
      && (s.sessions[e.sid].phase.AwaitingRate? || s.sessions[e.sid].phase.AwaitingSlot?)
      && var probing := s.sessions[e.sid].phase.permit.Probe?;
         && (probing ==> s.episode.Some?)
         && after.episode ==
              if probing then Some(s.episode.value.(leader := None, probeActive := false, readyAt := e.at)) else s.episode
  {
    Reachable(cfg, states, events, n);
    var s, e := states[n], events[n];
    assert SessionOk(cfg, s.episode, e.sid, s.sessions[e.sid]);
    if s.sessions[e.sid].phase.permit.Probe? {
      assert HoldsProbe(s.sessions[e.sid].phase, s.sessions[e.sid].phase.permit.generation);
    }
  }

  // ---- Rate and slot ----

  /** A start is recorded, and the session goes on to the slot, exactly if there is room in the window and
      the permit is still current: a probe's always is, a normal one while no episode is open. A stale
      permit sends it back to the gate; without room it stays where it is. */
  lemma RateDecides(cfg: Config, states: seq<State>, events: seq<Event>, n: nat)
    requires IsRun(cfg, states, events) && n < |events| && events[n].action.RateSection?
    ensures
      var s, sid, at, after := states[n], events[n].sid, events[n].at, states[n + 1];
      && sid in s.sessions && sid in after.sessions && s.sessions[sid].phase.AwaitingRate?
      && var permit := s.sessions[sid].phase.permit;
         var room := SlidingWindow.CountIn(s.window.history, at - cfg.limits.rateWindow + 1, at + 1) < cfg.limits.rateLimit;
         var current := permit.Probe? || s.episode.None?;
         && after.episode == s.episode
         && after.window.history == (if room && current then s.window.history + [at] else s.window.history)
         && after.sessions[sid].phase ==
              if !room then AwaitingRate(permit) else if current then AwaitingSlot(permit) else AtGate
  {
    Reachable(cfg, states, events, n);
    assert StepAt(cfg, states, events, n);
    var s, e := states[n], events[n];
    assert SessionOk(cfg, s.episode, e.sid, s.sessions[e.sid]);
    var permit := s.sessions[e.sid].phase.permit;
    assert permit.Probe? ==> HoldsProbe(s.sessions[e.sid].phase, permit.generation);
    assert PermitIsCurrent(s, e.sid, permit) <==> permit.Probe? || s.episode.None?;
    SlidingWindow.FullMeansWait(cfg.limits, s.window, SlidingWindow.Reading(e.at, e.at, PermitIsCurrent(s, e.sid, permit)));
  }

  /** A granted slot is used for an attempt exactly if the permit is still current; otherwise it is given
      back and the session goes back to the gate. */
  lemma SlotDecides(cfg: Config, states: seq<State>, events: seq<Event>, n: nat)
    requires IsRun(cfg, states, events) && n < |events| && StepAt(cfg, states, events, n)
    requires events[n].action.SlotSection?
    ensures
      var s, sid, after := states[n], events[n].sid, states[n + 1];
      && sid in s.sessions && sid in after.sessions && s.sessions[sid].phase.AwaitingSlot?
      && var permit := s.sessions[sid].phase.permit;
         var current := permit.Probe? || s.episode.None?;
         && OutcomeOf(cfg, s, events[n]) == (if current then Claimed else Silent)
         && after.episode == s.episode
         && after.freeSlots == (if current then s.freeSlots - 1 else s.freeSlots)
         && after.sessions[sid].phase == if current then Attempting(permit, false) else AtGate
  {
    Reachable(cfg, states, events, n);
    var s, e := states[n], events[n];
    assert SessionOk(cfg, s.episode, e.sid, s.sessions[e.sid]);
    var permit := s.sessions[e.sid].phase.permit;
    assert permit.Probe? ==> HoldsProbe(s.sessions[e.sid].phase, permit.generation);
  }

  // ---- What stays as it is ----

  /** A section changes no other session at all, unless it is the failure that exhausts an episode, which
      fails that episode's waiters; and only a rate section touches the window. */
  lemma OthersAreUntouched(cfg: Config, states: seq<State>, events: seq<Event>, n: nat, other: SessionId)
    requires IsRun(cfg, states, events) && n < |events| && StepAt(cfg, states, events, n)
    requires other in states[n].sessions && other != events[n].sid
    ensures
      var s, e, after := states[n], events[n], states[n + 1];
      var failed := Exhausts(cfg, s, e) && s.episode.Some? && other in s.episode.value.waiters;
      && other in after.sessions
      && after.sessions[other] ==
           (if failed then s.sessions[other].(terminalError := Some(e.action.report.error)) else s.sessions[other])
      && (!e.action.RateSection? ==> after.window == s.window)
      && after.now == e.at
  {
    var s, e := states[n], events[n];
    if e.action.Retry? && Unresolved(s, e.sid) {
      FailureLeavesOthers(cfg, s, e, other);
    }
  }

  lemma FailureLeavesOthers(cfg: Config, s: State, e: Event, other: SessionId)
    requires Enabled(cfg, s, e) && e.action.Retry? && Unresolved(s, e.sid) && other in s.sessions && other != e.sid
    ensures
      var after := Step(cfg, s, e);
      var failed := Exhausts(cfg, s, e) && s.episode.Some? && other in s.episode.value.waiters;
      && other in after.sessions && after.window == s.window
      && after.sessions[other] ==
           (if failed then s.sessions[other].(terminalError := Some(e.action.report.error)) else s.sessions[other])
  {
  }

  /** A new session has claimed nothing, carries no error and is idle. */
  lemma NewSessionsAreFree(cfg: Config, states: seq<State>, events: seq<Event>, n: nat)
    requires IsRun(cfg, states, events) && n < |events| && StepAt(cfg, states, events, n)
    requires events[n].action.NewSession?
    ensures
      var sid, after := events[n].sid, states[n + 1];
      && sid !in states[n].sessions && sid in after.sessions
      && after.sessions[sid].attemptsStarted == 0
      && after.sessions[sid].terminalError.None? && after.sessions[sid].phase.Idle?
      && after.episode == states[n].episode
  {
  }
}
