/** The invariant of every reachable admission state, and that each section keeps it. */
module AdmissionInvariant {
  import opened Options
  import opened AdmissionSpec
  import SlidingWindow

  /** The session carries an unresolved permit to probe for that generation. */
  predicate HoldsProbe(phase: Phase, generation: nat) {
    || phase == AwaitingRate(Probe(generation))
    || phase == AwaitingSlot(Probe(generation))
    || phase == Attempting(Probe(generation), false)
  }

  /** The session will pass the top of the gate loop before it can be given a permit. */
  predicate BeforeGate(phase: Phase) {
    phase.Idle? || phase.AtGate? || phase.Waiting? || (phase.Attempting? && phase.resolved)
  }

  /** Where a leader that is not probing can be. */
  predicate LeaderRests(phase: Phase, e: Episode) {
    || phase.Idle?
    || phase.AtGate?
    || (phase.Attempting? && phase.resolved)
    || phase == Sleeping(e.generation, e.readyAt)
  }

  ghost predicate LeaderOk(e: Episode, sessions: map<SessionId, Session>) {
    e.leader.Some? ==>
      && e.leader.value in sessions
      && e.leader.value !in e.waiters
      && sessions[e.leader.value].terminalError.None?
      && (if e.probeActive then HoldsProbe(sessions[e.leader.value].phase, e.generation)
          else LeaderRests(sessions[e.leader.value].phase, e))
  }

  ghost predicate WaitersOk(e: Episode, sessions: map<SessionId, Session>) {
    forall w | w in e.waiters ::
      w in sessions && sessions[w].terminalError.None? && BeforeGate(sessions[w].phase)
  }

  ghost predicate EpisodeOk(e: Episode, nextGeneration: nat, sessions: map<SessionId, Session>) {
    && e.generation < nextGeneration
    && (e.probeActive ==> e.leader.Some?)
    && (e.terminalUntil.Some? ==> e.leader.None? && e.waiters == {})
    && LeaderOk(e, sessions)
    && WaitersOk(e, sessions)
  }

  ghost predicate SessionOk(cfg: Config, episode: Option<Episode>, sid: SessionId, session: Session) {
    && session.attemptsStarted <= cfg.maxAttempts
    && (!session.phase.Idle? && !session.phase.Attempting? ==> session.attemptsStarted < cfg.maxAttempts)
    && (session.terminalError.Some? ==> BeforeGate(session.phase))
    && !session.phase.ProbeWait?
    && (forall g | HoldsProbe(session.phase, g) ::
          && episode.Some?
          && episode.value.generation == g
          && episode.value.leader == Some(sid)
          && episode.value.probeActive)
    && (session.phase.Sleeping? ==>
          && episode.Some?
          && episode.value.generation == session.phase.generation
          && episode.value.leader == Some(sid)
          && !episode.value.probeActive
          && episode.value.readyAt == session.phase.wakeAt)
  }

  function Holding(sessions: map<SessionId, Session>): set<SessionId> {
    set i | i in sessions && sessions[i].phase.Attempting?
  }

  /** Free slots and attempts that are not closed add up to the configured concurrency. */
  ghost predicate SlotsOk(cfg: Config, s: State) {
    s.freeSlots + |Holding(s.sessions)| == cfg.maxConcurrency
  }

  ghost predicate GateOk(cfg: Config, s: State) {
    && (s.episode.Some? ==> EpisodeOk(s.episode.value, s.nextGeneration, s.sessions))
    && (forall i | i in s.sessions :: SessionOk(cfg, s.episode, i, s.sessions[i]))
  }

  ghost predicate WindowOk(cfg: Config, s: State) {
    SlidingWindow.Inv(cfg.limits, s.window) && s.window.clock <= s.now
  }

  ghost predicate Inv(cfg: Config, s: State) {
    GateOk(cfg, s) && SlotsOk(cfg, s) && WindowOk(cfg, s)
  }

  lemma StartInv(cfg: Config, now: int)
    requires ValidConfig(cfg)
    ensures Inv(cfg, Start(cfg, now))
  {
  }

  // ---- The gate part, section by section ----

  lemma NewSessionKeeps(cfg: Config, s: State, sid: SessionId)
    requires GateOk(cfg, s) && sid !in s.sessions
    ensures GateOk(cfg, s.(sessions := s.sessions[sid := Session(0, None, Idle)]))
  {
  }

  /** A session moves between places where it holds nothing and sleeps for nothing. */
  lemma IdleMoveKeeps(cfg: Config, s: State, sid: SessionId, phase: Phase)
    requires GateOk(cfg, s) && sid in s.sessions
    requires BeforeGate(s.sessions[sid].phase)
    requires phase.Idle? || (phase.AtGate? && s.sessions[sid].attemptsStarted < cfg.maxAttempts)
    ensures GateOk(cfg, WithPhase(s, sid, phase))
  {
  }

  lemma PassOpenEpisodeKeeps(cfg: Config, s: State, sid: SessionId)
    requires GateOk(cfg, s) && sid in s.sessions && s.sessions[sid].phase.AtGate?
    requires s.sessions[sid].terminalError.None?
    requires s.episode.Some? && s.episode.value.terminalUntil.None?
    ensures GateOk(cfg, PassOpenEpisode(s, sid))
  {
  }

  lemma ReopenKeeps(cfg: Config, s: State, sid: SessionId)
    requires GateOk(cfg, s) && sid in s.sessions && s.sessions[sid].phase.AtGate?
    requires s.sessions[sid].terminalError.None?
    requires s.episode.Some? && s.episode.value.terminalUntil.Some?
    ensures GateOk(cfg, StartEpisode(s, Some(sid), s.now, s.episode.value.lastError))
  {
  }

  lemma GateSectionKeeps(cfg: Config, s: State, sid: SessionId)
    requires GateOk(cfg, s) && sid in s.sessions && s.sessions[sid].phase.AtGate?
    ensures GateOk(cfg, GateSection(s, sid))
  {
    if s.sessions[sid].terminalError.Some? {
      IdleMoveKeeps(cfg, s, sid, Idle);
    } else if s.episode.Some? {
      var e := s.episode.value;
      if e.terminalUntil.None? {
        PassOpenEpisodeKeeps(cfg, s, sid);
      } else if s.now < e.terminalUntil.value {
        IdleMoveKeeps(cfg, s, sid, Idle);
      } else {
        ReopenKeeps(cfg, s, sid);
        PassOpenEpisodeKeeps(cfg, StartEpisode(s, Some(sid), s.now, e.lastError), sid);
      }
    }
  }

  lemma CancelWaitKeeps(cfg: Config, s: State, sid: SessionId)
    requires GateOk(cfg, s) && sid in s.sessions
    requires s.sessions[sid].phase.Waiting? || s.sessions[sid].phase.ProbeWait?
    ensures GateOk(cfg, CancelWaitSection(s, sid))
  {
  }

  lemma SleepDoneKeeps(cfg: Config, s: State, sid: SessionId)
    requires GateOk(cfg, s) && sid in s.sessions && s.sessions[sid].phase.Sleeping?
    ensures GateOk(cfg, SleepDoneSection(s, sid))
  {
  }

  lemma CancelSleepKeeps(cfg: Config, s: State, sid: SessionId)
    requires GateOk(cfg, s) && sid in s.sessions && s.sessions[sid].phase.Sleeping?
    ensures GateOk(cfg, CancelSleepSection(s, sid))
  {
  }

  /** Giving a permit back leaves the session free to move on. */
  lemma AbandonKeeps(cfg: Config, s: State, sid: SessionId, phase: Phase)
    requires GateOk(cfg, s) && sid in s.sessions
    requires s.sessions[sid].phase.AwaitingRate? || s.sessions[sid].phase.AwaitingSlot?
    requires phase.Idle? || phase.AtGate?
    ensures GateOk(cfg, WithPhase(AbandonProbe(s, sid, s.sessions[sid].phase.permit), sid, phase))
  {
  }

  lemma RateMoveKeeps(cfg: Config, s: State, sid: SessionId)
    requires GateOk(cfg, s) && sid in s.sessions && s.sessions[sid].phase.AwaitingRate?
    ensures GateOk(cfg, WithPhase(s, sid, AwaitingSlot(s.sessions[sid].phase.permit)))
  {
    var permit := s.sessions[sid].phase.permit;
    assert permit.Probe? ==> HoldsProbe(s.sessions[sid].phase, permit.generation);
  }

  lemma SlotStepKeeps(cfg: Config, s: State, sid: SessionId)
    requires GateOk(cfg, s) && sid in s.sessions && s.sessions[sid].phase.AwaitingSlot? && s.freeSlots > 0
    ensures GateOk(cfg, SlotStep(cfg, s, sid))
  {
    if !PermitIsCurrent(s, sid, s.sessions[sid].phase.permit) {
      AbandonKeeps(cfg, s, sid, AtGate);
    }
  }

  lemma CloseEpisodeKeeps(cfg: Config, s: State, sid: SessionId)
    requires GateOk(cfg, s) && sid in s.sessions && s.sessions[sid].phase.Attempting? && !s.sessions[sid].phase.resolved
    ensures GateOk(cfg, Resolve(CloseEpisode(s, sid, s.sessions[sid].phase.permit), sid))
  {
  }

  lemma CorrectProbeKeeps(cfg: Config, s: State, sid: SessionId)
    requires GateOk(cfg, s) && sid in s.sessions && s.sessions[sid].phase.Attempting? && !s.sessions[sid].phase.resolved
    ensures GateOk(cfg, Resolve(CorrectProbe(s, sid, s.sessions[sid].phase.permit), sid))
  {
  }

  lemma JoinRecoveryKeeps(cfg: Config, s: State, sid: SessionId, error: ProviderError, delay: nat)
    requires GateOk(cfg, s) && sid in s.sessions && s.sessions[sid].phase.Attempting? && !s.sessions[sid].phase.resolved
    ensures GateOk(cfg, Resolve(JoinRecovery(s, sid, s.sessions[sid].phase.permit, error, delay), sid))
  {
  }

  lemma ExhaustRecoveryKeeps(cfg: Config, s: State, sid: SessionId, error: ProviderError, delay: nat)
    requires GateOk(cfg, s) && sid in s.sessions && s.sessions[sid].phase.Attempting? && !s.sessions[sid].phase.resolved
    ensures GateOk(cfg, Resolve(ExhaustRecovery(s, sid, s.sessions[sid].phase.permit, error, delay), sid))
  {
  }

  lemma FailAttemptKeeps(cfg: Config, s: State, sid: SessionId, report: FailureReport)
    requires GateOk(cfg, s) && sid in s.sessions && Unresolved(s, sid)
    ensures GateOk(cfg, Resolve(FailAttempt(cfg, s, sid, s.sessions[sid].phase.permit, report), sid))
  {
    var attempt := s.sessions[sid].attemptsStarted;
    CloseEpisodeKeeps(cfg, s, sid);
    JoinRecoveryKeeps(cfg, s, sid, report.error, RetryDelay(cfg, report.error, attempt, report.jitter));
    ExhaustRecoveryKeeps(cfg, s, sid, report.error, RetryDelay(cfg, report.error, attempt, report.terminalJitter));
  }

  lemma CloseAttemptKeeps(cfg: Config, s: State, sid: SessionId)
    requires GateOk(cfg, s) && sid in s.sessions && s.sessions[sid].phase.Attempting?
    ensures GateOk(cfg, CloseAttempt(s, sid))
  {
  }

  lemma RateStepKeeps(cfg: Config, s: State, sid: SessionId)
    requires GateOk(cfg, s) && sid in s.sessions && s.sessions[sid].phase.AwaitingRate?
    requires SlidingWindow.HeadInRange(s.window)
    ensures GateOk(cfg, RateStep(cfg, s, sid))
  {
    var permit := s.sessions[sid].phase.permit;
    var counted := s.(window := RateStep(cfg, s, sid).window);
    RateMoveKeeps(cfg, counted, sid);
    AbandonKeeps(cfg, counted, sid, AtGate);
  }

  lemma StepKeepsGate(cfg: Config, before: State, e: Event)
    requires GateOk(cfg, before) && Enabled(cfg, before, e)
    ensures GateOk(cfg, Step(cfg, before, e))
  {
    var sid, s := e.sid, before.(now := e.at);
    assert GateOk(cfg, s);
    match e.action {
      case NewSession => NewSessionKeeps(cfg, s, sid);
      case OpenAttempt =>
        if s.sessions[sid].attemptsStarted < cfg.maxAttempts {
          IdleMoveKeeps(cfg, s, sid, AtGate);
        }
      case Gate => GateSectionKeeps(cfg, s, sid);
      case Wake => assert !s.sessions[sid].phase.ProbeWait?; IdleMoveKeeps(cfg, s, sid, AtGate);
      case CancelWait => CancelWaitKeeps(cfg, s, sid);
      case SleepDone => SleepDoneKeeps(cfg, s, sid);
      case CancelSleep => CancelSleepKeeps(cfg, s, sid);
      case RateSection => RateStepKeeps(cfg, s, sid);
      case SlotSection => SlotStepKeeps(cfg, s, sid);
      case CancelPermit => AbandonKeeps(cfg, s, sid, Idle);
      case Succeeded => if Unresolved(s, sid) { CloseEpisodeKeeps(cfg, s, sid); }
      case RetryImmediately => if Unresolved(s, sid) { CorrectProbeKeeps(cfg, s, sid); }
      case Retry(report) => if Unresolved(s, sid) { FailAttemptKeeps(cfg, s, sid, report); }
      case Close(attempt) => if Holds(s, sid, attempt) { CloseAttemptKeeps(cfg, s, sid); }
    }
  }

  // ---- Slots and window ----

  /** Nobody but `sid` moves. */
  ghost predicate MovesOnly(before: map<SessionId, Session>, after: map<SessionId, Session>, sid: SessionId) {
    && after.Keys == before.Keys + {sid}
    && (forall i | i in before && i != sid ::
          && after[i].phase == before[i].phase
          && after[i].attemptsStarted == before[i].attemptsStarted)
  }

  lemma GateMovesOnly(s: State, sid: SessionId)
    requires sid in s.sessions
    ensures MovesOnly(s.sessions, GateSection(s, sid).sessions, sid)
  {
  }

  lemma SlotMovesOnly(cfg: Config, s: State, sid: SessionId)
    requires sid in s.sessions && s.sessions[sid].phase.AwaitingSlot? && s.freeSlots > 0
    ensures MovesOnly(s.sessions, SlotStep(cfg, s, sid).sessions, sid)
  {
  }

  lemma RateMovesOnly(cfg: Config, s: State, sid: SessionId)
    requires sid in s.sessions && s.sessions[sid].phase.AwaitingRate? && SlidingWindow.HeadInRange(s.window)
    ensures MovesOnly(s.sessions, RateStep(cfg, s, sid).sessions, sid)
  {
  }

  /** An event moves only its own session, and only a claim spends its budget. */
  lemma StepLeavesTheOthers(cfg: Config, before: State, e: Event)
    requires Enabled(cfg, before, e)
    ensures MovesOnly(before.sessions, Step(cfg, before, e).sessions, e.sid)
  {
    var sid, s := e.sid, before.(now := e.at);
    match e.action {
      case Gate => GateMovesOnly(s, sid);
      case RateSection => RateMovesOnly(cfg, s, sid);
      case SlotSection => SlotMovesOnly(cfg, s, sid);
      case Retry(report) =>
        if Unresolved(s, sid) {
          FailAttemptMovesNobody(cfg, s, sid, s.sessions[sid].phase.permit, report);
        }
      case _ =>
    }
  }

  lemma StepCountsAttempts(cfg: Config, before: State, e: Event)
    requires Enabled(cfg, before, e) && e.sid in before.sessions
    ensures
      var after := Step(cfg, before, e);
      && e.sid in after.sessions
      && after.sessions[e.sid].attemptsStarted ==
           before.sessions[e.sid].attemptsStarted + if OutcomeOf(cfg, before, e) == Claimed then 1 else 0
  {
    var sid, s := e.sid, before.(now := e.at);
    if e.action.Retry? && Unresolved(s, sid) {
      FailAttemptMovesNobody(cfg, s, sid, s.sessions[sid].phase.permit, e.action.report);
    }
  }

  lemma StepTellsTheTime(cfg: Config, before: State, e: Event)
    requires Enabled(cfg, before, e)
    ensures Step(cfg, before, e).now == e.at
  {
  }

  lemma StepMovesOnlyItsSession(cfg: Config, before: State, e: Event)
    requires GateOk(cfg, before) && Enabled(cfg, before, e)
    ensures
      var after := Step(cfg, before, e);
      && after.now == e.at
      && after.sessions.Keys == before.sessions.Keys + {e.sid}
      && (forall i | i in before.sessions && i != e.sid ::
            && after.sessions[i].phase == before.sessions[i].phase
            && after.sessions[i].attemptsStarted == before.sessions[i].attemptsStarted)
      && (e.sid in before.sessions ==>
            after.sessions[e.sid].attemptsStarted ==
              before.sessions[e.sid].attemptsStarted + if OutcomeOf(cfg, before, e) == Claimed then 1 else 0)
  {
    StepTellsTheTime(cfg, before, e);
    StepLeavesTheOthers(cfg, before, e);
    if e.sid in before.sessions {
      StepCountsAttempts(cfg, before, e);
    }
  }

  lemma FailAttemptMovesNobody(cfg: Config, s: State, sid: SessionId, permit: Permit, report: FailureReport)
    requires sid in s.sessions
    ensures
      var after := FailAttempt(cfg, s, sid, permit, report);
      && after.sessions.Keys == s.sessions.Keys
      && after.freeSlots == s.freeSlots
      && after.window == s.window
      && (forall i | i in s.sessions ::
            && after.sessions[i].phase == s.sessions[i].phase
            && after.sessions[i].attemptsStarted == s.sessions[i].attemptsStarted)
  {
  }

  /** An event that closes the session's open attempt, and not one that was closed before. */
  predicate ClosesAttempt(s: State, e: Event) {
    e.action.Close? && e.sid in s.sessions && Holds(s, e.sid, e.action.attempt)
  }

  /** Only a claim takes a slot and only closing an open attempt gives it back. */
  lemma StepMovesSlots(cfg: Config, before: State, e: Event)
    requires GateOk(cfg, before) && Enabled(cfg, before, e)
    ensures
      var after := Step(cfg, before, e);
      var claimed, closed := OutcomeOf(cfg, before, e) == Claimed, ClosesAttempt(before, e);
      && e.sid in after.sessions
      && after.freeSlots == before.freeSlots + (if claimed then -1 else if closed then 1 else 0)
      && (claimed || closed ==> e.sid in before.sessions)
      && (claimed ==> !before.sessions[e.sid].phase.Attempting? && after.sessions[e.sid].phase.Attempting?)
      && (closed ==> before.sessions[e.sid].phase.Attempting? && !after.sessions[e.sid].phase.Attempting?)
      && (!claimed && !closed ==>
            (after.sessions[e.sid].phase.Attempting? <==>
             e.sid in before.sessions && before.sessions[e.sid].phase.Attempting?))
  {
    var sid, s := e.sid, before.(now := e.at);
    if e.action.Retry? && Unresolved(s, sid) {
      FailAttemptMovesNobody(cfg, s, sid, s.sessions[sid].phase.permit, e.action.report);
    }
  }

  lemma StepKeepsSlots(cfg: Config, before: State, e: Event)
    requires GateOk(cfg, before) && SlotsOk(cfg, before) && Enabled(cfg, before, e)
    ensures SlotsOk(cfg, Step(cfg, before, e))
  {
    StepMovesOnlyItsSession(cfg, before, e);
    StepMovesSlots(cfg, before, e);
    HoldingMoves(before.sessions, Step(cfg, before, e).sessions, e.sid);
  }

  lemma HoldingMoves(before: map<SessionId, Session>, after: map<SessionId, Session>, sid: SessionId)
    requires after.Keys == before.Keys + {sid}
    requires forall i | i in before && i != sid :: after[i].phase == before[i].phase
    ensures
      var held := sid in before && before[sid].phase.Attempting?;
      |Holding(after)| == |Holding(before)| - (if held then 1 else 0) + (if after[sid].phase.Attempting? then 1 else 0)
  {
    var a, b := Holding(after), Holding(before);
    assert sid in a <==> after[sid].phase.Attempting?;
    assert sid in b <==> sid in before && before[sid].phase.Attempting?;
    assert a - {sid} == b - {sid};
    SizeWithout(a, sid);
    SizeWithout(b, sid);
  }

  lemma SizeWithout(a: set<SessionId>, x: SessionId)
    ensures |a| == |a - {x}| + if x in a then 1 else 0
  {
    if x in a {
      assert a == (a - {x}) + {x};
    } else {
      assert a == a - {x};
    }
  }

  lemma OnlyRateMovesWindow(cfg: Config, s: State, e: Event)
    requires ValidConfig(cfg) && Enabled(cfg, s, e) && !e.action.RateSection?
    ensures Step(cfg, s, e).window == s.window && Step(cfg, s, e).now >= s.now
  {
  }

  lemma RateKeepsWindow(cfg: Config, s: State, e: Event)
    requires ValidConfig(cfg) && WindowOk(cfg, s) && Enabled(cfg, s, e) && e.action.RateSection?
    ensures WindowOk(cfg, Step(cfg, s, e))
  {
    var reading := SlidingWindow.Reading(e.at, e.at, PermitIsCurrent(s, e.sid, s.sessions[e.sid].phase.permit));
    SlidingWindow.SectionKeepsInv(cfg.limits, s.window, reading);
    assert WithPhase(s, e.sid, Idle).window == s.window;
  }

  lemma StepKeepsWindow(cfg: Config, s: State, e: Event)
    requires ValidConfig(cfg) && WindowOk(cfg, s) && Enabled(cfg, s, e)
    ensures WindowOk(cfg, Step(cfg, s, e))
  {
    if e.action.RateSection? {
      RateKeepsWindow(cfg, s, e);
    } else {
      OnlyRateMovesWindow(cfg, s, e);
    }
  }

  lemma StepKeepsInv(cfg: Config, s: State, e: Event)
    requires ValidConfig(cfg) && Inv(cfg, s) && Enabled(cfg, s, e)
    ensures Inv(cfg, Step(cfg, s, e))
  {
    StepKeepsGate(cfg, s, e);
    StepKeepsSlots(cfg, s, e);
    StepKeepsWindow(cfg, s, e);
  }
}
