/** The admission state of one provider: providers/admission.py between its suspension points.

    asyncio runs one coroutine at a time, so the code between two `await`s is atomic. Each such section
    is one event here; `Step` says what it does to the whole state and `OutcomeOf` what it raises or
    returns. Every retry session is used by one caller at a time, so the place where that caller is
    suspended is a field of the session. A run is any interleaving of events of any number of sessions,
    with cancellation at every wait. Time is an integer, read once per section, that never runs back. */
module AdmissionSpec {
  import opened Options
  import SlidingWindow

  type SessionId = nat

  /** What a provider's rate-limit headers say: seconds until its window resets, and what is left of the quota. */
  datatype RateLimitSignal = RateLimitSignal(
    resetSeconds: Option<nat>, remainingTokens: Option<nat>, remainingRequests: Option<nat>)
  {
    predicate Exhausted() {
      remainingTokens == Some(0) || remainingRequests == Some(0)
    }
  }

  /** An upstream error, with what its response headers say once parsed. */
  datatype ProviderError = ProviderError(code: nat, retryAfter: Option<nat>, signal: Option<RateLimitSignal>)

  datatype Config = Config(
    maxAttempts: nat, maxConcurrency: nat, limits: SlidingWindow.Limits,
    baseDelay: nat, maxDelay: nat, jitter: nat, anticipation: bool)

  ghost predicate ValidConfig(cfg: Config) {
    && cfg.maxAttempts > 0
    && cfg.maxConcurrency > 0
    && SlidingWindow.ValidLimits(cfg.limits)
    && cfg.baseDelay <= cfg.maxDelay
  }

  datatype Permit = Normal | Probe(generation: nat)

  /** Where the caller of a session is suspended. */
  datatype Phase =
    | Idle
    | AtGate
    | Waiting(generation: nat)
    | ProbeWait
    | Sleeping(generation: nat, wakeAt: int)
    | AwaitingRate(permit: Permit)
    | AwaitingSlot(permit: Permit)
    | Attempting(permit: Permit, resolved: bool)

  datatype Session = Session(attemptsStarted: nat, terminalError: Option<ProviderError>, phase: Phase)

  datatype Episode = Episode(
    generation: nat, leader: Option<SessionId>, readyAt: int, lastError: ProviderError,
    waiters: set<SessionId>, probeActive: bool, terminalUntil: Option<int>)

  datatype State = State(
    now: int, episode: Option<Episode>, nextGeneration: nat, freeSlots: nat,
    window: SlidingWindow.Window, sessions: map<SessionId, Session>)

  /** What a failed attempt reports: the error, whether policy calls it retryable, two jitter samples. */
  datatype FailureReport = FailureReport(error: ProviderError, retryable: bool, jitter: nat, terminalJitter: nat)

  datatype Action =
    | NewSession
    | OpenAttempt
    | Gate
    | Wake
    | CancelWait
    | SleepDone
    | CancelSleep
    | RateSection
    | SlotSection
    | CancelPermit
    | Succeeded
    | RetryImmediately
    | Retry(report: FailureReport)
    | Close(attempt: nat)

  datatype Event = Event(sid: SessionId, at: int, action: Action)

  datatype Outcome =
    | Silent
    | BudgetError
    | RecoveryExhausted(error: ProviderError)
    | Claimed
    | MayRetry(yes: bool)

  // ---- Delays ----

  function Pow2(n: nat): nat {
    if n == 0 then 1 else 2 * Pow2(n - 1)
  }

  function CappedBackoff(cfg: Config, attempt: nat): nat {
    var exponent: nat := if attempt >= 1 then attempt - 1 else 0;
    var backoff := cfg.baseDelay * Pow2(exponent);
    if backoff <= cfg.maxDelay then backoff else cfg.maxDelay
  }

  /** The backoff starts at the base delay, doubles from attempt to attempt and stops at the cap. */
  lemma BackoffDoublesUpToTheCap(cfg: Config, attempt: nat)
    ensures CappedBackoff(cfg, 0) == CappedBackoff(cfg, 1) == Min(cfg.baseDelay, cfg.maxDelay)
    ensures attempt >= 1 ==> CappedBackoff(cfg, attempt + 1) == Min(2 * CappedBackoff(cfg, attempt), cfg.maxDelay)
    ensures CappedBackoff(cfg, attempt) <= cfg.maxDelay
  {
    if attempt >= 1 {
      assert cfg.baseDelay * Pow2(attempt) == 2 * (cfg.baseDelay * Pow2(attempt - 1));
    }
  }

  function SignalOf(cfg: Config, error: ProviderError): Option<RateLimitSignal> {
    if cfg.anticipation then error.signal else None
  }

  /** `_retry_delay`: the capped backoff with jitter, raised to what the provider asks for. */
  function RetryDelay(cfg: Config, error: ProviderError, attempt: nat, jitter: nat): (delay: nat)
    ensures delay >= CappedBackoff(cfg, attempt) + jitter
    ensures error.retryAfter.Some? ==> delay >= error.retryAfter.value
    ensures
      var signal := SignalOf(cfg, error);
      signal.Some? && signal.value.resetSeconds.Some? ==> delay >= signal.value.resetSeconds.value
    ensures
      var signal := SignalOf(cfg, error);
      || delay == CappedBackoff(cfg, attempt) + jitter
      || error.retryAfter == Some(delay)
      || (signal.Some? && signal.value.resetSeconds == Some(delay))
  {
    var backoff := CappedBackoff(cfg, attempt) + jitter;
    var afterHeader := match error.retryAfter case Some(seconds) => Max(backoff, seconds) case None => backoff;
    match SignalOf(cfg, error)
    case Some(signal) =>
      (match signal.resetSeconds case Some(seconds) => Max(afterHeader, seconds) case None => afterHeader)
    case None => afterHeader
  }

  // ---- Permits ----

  /** `_permit_is_current`. */
  predicate PermitIsCurrent(s: State, sid: SessionId, permit: Permit) {
    match permit
    case Normal => s.episode.None?
    case Probe(generation) =>
      && s.episode.Some?
      && s.episode.value.generation == generation
      && s.episode.value.terminalUntil.None?
      && s.episode.value.leader == Some(sid)
      && s.episode.value.probeActive
  }

  /** `_matching_probe`. */
  predicate MatchingProbe(s: State, sid: SessionId, permit: Permit) {
    && permit.Probe?
    && s.episode.Some?
    && s.episode.value.generation == permit.generation
    && s.episode.value.leader == Some(sid)
    && s.episode.value.probeActive
  }

  function WithPhase(s: State, sid: SessionId, phase: Phase): State
    requires sid in s.sessions
  {
    s.(sessions := s.sessions[sid := s.sessions[sid].(phase := phase)])
  }

  /** `_abandon_probe_permit` and `_attempt_abandoned`: hand the probe back without an outcome. */
  function AbandonProbe(s: State, sid: SessionId, permit: Permit): State {
    if MatchingProbe(s, sid, permit) then
      s.(episode := Some(s.episode.value.(leader := None, probeActive := false, readyAt := s.now)))
    else s
  }

  /** `_start_recovery_episode`. */
  function StartEpisode(s: State, leader: Option<SessionId>, readyAt: int, lastError: ProviderError): State {
    s.(episode := Some(Episode(s.nextGeneration, leader, readyAt, lastError, {}, false, None)),
       nextGeneration := s.nextGeneration + 1)
  }

  // ---- The sections ----

  /** The gate, once it is known that no terminal episode is in force. */
  function PassOpenEpisode(s: State, sid: SessionId): State
    requires sid in s.sessions && s.episode.Some?
  {
    var e := s.episode.value;
    var led := if e.leader.None? then e.(leader := Some(sid), waiters := e.waiters - {sid}) else e;
    if led.leader != Some(sid) then
      WithPhase(s.(episode := Some(led.(waiters := led.waiters + {sid}))), sid, Waiting(led.generation))
    else if led.probeActive then
      WithPhase(s.(episode := Some(led)), sid, ProbeWait)
    else if s.now >= led.readyAt then
      WithPhase(s.(episode := Some(led.(probeActive := true))), sid, AwaitingRate(Probe(led.generation)))
    else
      WithPhase(s.(episode := Some(led)), sid, Sleeping(led.generation, led.readyAt))
  }

  /** One pass of the loop in `_wait_for_gate`, up to the first wait or the returned permit. */
  function GateSection(s: State, sid: SessionId): State
    requires sid in s.sessions
  {
    if s.sessions[sid].terminalError.Some? then WithPhase(s, sid, Idle)
    else match s.episode
      case None => WithPhase(s, sid, AwaitingRate(Normal))
      case Some(e) =>
        match e.terminalUntil
        case None => PassOpenEpisode(s, sid)
        case Some(until) =>
          if s.now < until then WithPhase(s, sid, Idle)
          else PassOpenEpisode(StartEpisode(s, Some(sid), s.now, e.lastError), sid)
  }

  function GateOutcome(s: State, sid: SessionId): Outcome
    requires sid in s.sessions
  {
    if s.sessions[sid].terminalError.Some? then RecoveryExhausted(s.sessions[sid].terminalError.value)
    else match s.episode
      case None => Silent
      case Some(e) =>
        match e.terminalUntil
        case None => Silent
        case Some(until) => if s.now < until then RecoveryExhausted(e.lastError) else Silent
  }

  /** Cancellation while waiting on the condition. */
  function CancelWaitSection(s: State, sid: SessionId): State
    requires sid in s.sessions
  {
    var phase := s.sessions[sid].phase;
    var left :=
      if phase.Waiting? && s.episode.Some? && s.episode.value.generation == phase.generation then
        s.(episode := Some(s.episode.value.(waiters := s.episode.value.waiters - {sid})))
      else s;
    WithPhase(left, sid, Idle)
  }

  /** The leader's sleep is over: it probes if the episode it slept for is still its own. */
  function SleepDoneSection(s: State, sid: SessionId): State
    requires sid in s.sessions && s.sessions[sid].phase.Sleeping?
  {
    var generation := s.sessions[sid].phase.generation;
    if && s.episode.Some?
       && s.episode.value.generation == generation
       && s.episode.value.terminalUntil.None?
       && s.episode.value.leader == Some(sid)
       && !s.episode.value.probeActive
    then
      WithPhase(s.(episode := Some(s.episode.value.(probeActive := true))), sid, AwaitingRate(Probe(generation)))
    else WithPhase(s, sid, AtGate)
  }

  /** `_abandon_waiting_leader`, when the leader is cancelled in its sleep. */
  function CancelSleepSection(s: State, sid: SessionId): State
    requires sid in s.sessions && s.sessions[sid].phase.Sleeping?
  {
    var left :=
      if && s.episode.Some?
         && s.episode.value.generation == s.sessions[sid].phase.generation
         && s.episode.value.leader == Some(sid)
         && !s.episode.value.probeActive
      then s.(episode := Some(s.episode.value.(leader := None)))
      else s;
    WithPhase(left, sid, Idle)
  }

  /** One section of `acquire_if` on behalf of a session, with what `open_attempt` does next. */
  function RateStep(cfg: Config, s: State, sid: SessionId): State
    requires sid in s.sessions && s.sessions[sid].phase.AwaitingRate?
    requires SlidingWindow.HeadInRange(s.window)
  {
    var permit := s.sessions[sid].phase.permit;
    var reading := SlidingWindow.Reading(s.now, s.now, PermitIsCurrent(s, sid, permit));
    var counted := s.(window := SlidingWindow.Section(cfg.limits, s.window, reading));
    match SlidingWindow.Decide(cfg.limits, s.window, reading)
    case Recorded => WithPhase(counted, sid, AwaitingSlot(permit))
    case Rejected => WithPhase(AbandonProbe(counted, sid, permit), sid, AtGate)
    case MustWait(_) => counted
  }

  /** A slot was acquired: claim an attempt with it, or give it back if the permit went stale. */
  function SlotStep(cfg: Config, s: State, sid: SessionId): State
    requires sid in s.sessions && s.sessions[sid].phase.AwaitingSlot? && s.freeSlots > 0
  {
    var permit := s.sessions[sid].phase.permit;
    if !PermitIsCurrent(s, sid, permit) then
      WithPhase(AbandonProbe(s, sid, permit), sid, AtGate)
    else if s.sessions[sid].attemptsStarted >= cfg.maxAttempts then
      WithPhase(AbandonProbe(s, sid, permit), sid, Idle)
    else
      s.(freeSlots := s.freeSlots - 1,
         sessions := s.sessions[sid := s.sessions[sid].(
           attemptsStarted := s.sessions[sid].attemptsStarted + 1,
           phase := Attempting(permit, false))])
  }

  function SlotOutcome(cfg: Config, s: State, sid: SessionId): Outcome
    requires sid in s.sessions && s.sessions[sid].phase.AwaitingSlot?
  {
    if !PermitIsCurrent(s, sid, s.sessions[sid].phase.permit) then Silent
    else if s.sessions[sid].attemptsStarted >= cfg.maxAttempts then BudgetError
    else Claimed
  }

  /** `_attempt_succeeded` and `_attempt_rejected`: an answered probe closes its episode. */
  function CloseEpisode(s: State, sid: SessionId, permit: Permit): State {
    if MatchingProbe(s, sid, permit) then s.(episode := None) else s
  }

  /** `_attempt_corrected`: the leader keeps the episode and may probe again at once. */
  function CorrectProbe(s: State, sid: SessionId, permit: Permit): State {
    if MatchingProbe(s, sid, permit) then
      s.(episode := Some(s.episode.value.(probeActive := false, readyAt := s.now)))
    else s
  }

  predicate CanRetry(cfg: Config, s: State, sid: SessionId, error: ProviderError)
    requires sid in s.sessions
  {
    var signal := SignalOf(cfg, error);
    s.sessions[sid].attemptsStarted < cfg.maxAttempts && !(signal.Some? && signal.value.Exhausted())
  }

  /** Every coalesced waiter fails with the episode's error. */
  function FailWaiters(sessions: map<SessionId, Session>, waiters: set<SessionId>, error: ProviderError): map<SessionId, Session> {
    map i | i in sessions :: if i in waiters then sessions[i].(terminalError := Some(error)) else sessions[i]
  }

  /** A failure that may be retried opens an episode, re-times its own, or joins the open one. */
  function JoinRecovery(s: State, sid: SessionId, permit: Permit, error: ProviderError, delay: nat): State
    requires sid in s.sessions
  {
    match s.episode
    case None => StartEpisode(s, Some(sid), s.now + delay, error)
    case Some(e) =>
      if MatchingProbe(s, sid, permit) then
        s.(episode := Some(e.(lastError := error, probeActive := false, readyAt := s.now + delay)))
      else if e.terminalUntil.Some? then
        s.(sessions := s.sessions[sid := s.sessions[sid].(terminalError := Some(e.lastError))])
      else
        s.(episode := Some(e.(waiters := e.waiters + {sid})))
  }

  /** A failure out of budget or quota makes the episode terminal and fails everyone who waits. */
  function ExhaustRecovery(s: State, sid: SessionId, permit: Permit, error: ProviderError, delay: nat): State
    requires sid in s.sessions
  {
    if s.episode.Some? && !MatchingProbe(s, sid, permit) then s
    else
      var begun := if s.episode.None? then StartEpisode(s, None, s.now, error) else s;
      var e := begun.episode.value;
      begun.(
        episode := Some(e.(
          lastError := error, leader := None, probeActive := false,
          terminalUntil := Some(s.now + delay), waiters := {})),
        sessions := FailWaiters(s.sessions, e.waiters, error))
  }

  function FailAttempt(cfg: Config, s: State, sid: SessionId, permit: Permit, report: FailureReport): State
    requires sid in s.sessions
  {
    var attempt := s.sessions[sid].attemptsStarted;
    if !report.retryable then CloseEpisode(s, sid, permit)
    else if CanRetry(cfg, s, sid, report.error) then
      JoinRecovery(s, sid, permit, report.error, RetryDelay(cfg, report.error, attempt, report.jitter))
    else
      ExhaustRecovery(s, sid, permit, report.error, RetryDelay(cfg, report.error, attempt, report.terminalJitter))
  }

  function CloseAttempt(s: State, sid: SessionId): State
    requires sid in s.sessions && s.sessions[sid].phase.Attempting?
  {
    var phase := s.sessions[sid].phase;
    var left := if phase.resolved then s else AbandonProbe(s, sid, phase.permit);
    WithPhase(left.(freeSlots := left.freeSlots + 1), sid, Idle)
  }

  // ---- Steps ----

  /** What an event needs of the state: the caller is suspended where the section starts. An outcome may be
      reported on an attempt that has one already, and any attempt of the session may be closed again. */
  predicate Enabled(cfg: Config, s: State, e: Event) {
    && s.now <= e.at
    && SlidingWindow.HeadInRange(s.window)
    && (e.action.NewSession? <==> e.sid !in s.sessions)
    && (e.sid in s.sessions ==>
          var phase := s.sessions[e.sid].phase;
          match e.action
          case NewSession => false
          case OpenAttempt => phase.Idle?
          case Gate => phase.AtGate?
          case Wake => phase.Waiting? || phase.ProbeWait?
          case CancelWait => phase.Waiting? || phase.ProbeWait?
          case SleepDone => phase.Sleeping? && phase.wakeAt <= e.at
          case CancelSleep => phase.Sleeping?
          case RateSection => phase.AwaitingRate?
          case SlotSection => phase.AwaitingSlot? && s.freeSlots > 0
          case CancelPermit => phase.AwaitingRate? || phase.AwaitingSlot?
          case Succeeded => phase.Attempting?
          case RetryImmediately => phase.Attempting?
          case Retry(report) =>
            phase.Attempting? && report.jitter <= cfg.jitter && report.terminalJitter <= cfg.jitter
          case Close(attempt) => 1 <= attempt <= s.sessions[e.sid].attemptsStarted)
  }

  /** The session's attempt is not closed and has no outcome yet. */
  predicate Unresolved(s: State, sid: SessionId)
    requires sid in s.sessions
  {
    s.sessions[sid].phase.Attempting? && !s.sessions[sid].phase.resolved
  }

  /** The session's `attempt`-th attempt is the one that is not closed. */
  predicate Holds(s: State, sid: SessionId, attempt: nat)
    requires sid in s.sessions
  {
    s.sessions[sid].phase.Attempting? && s.sessions[sid].attemptsStarted == attempt
  }

  function Resolve(s: State, sid: SessionId): State
    requires sid in s.sessions && s.sessions[sid].phase.Attempting?
  {
    WithPhase(s, sid, s.sessions[sid].phase.(resolved := true))
  }

  function Step(cfg: Config, before: State, e: Event): State
    requires Enabled(cfg, before, e)
  {
    var sid, s := e.sid, before.(now := e.at);
    match e.action
    case NewSession => s.(sessions := s.sessions[sid := Session(0, None, Idle)])
    case OpenAttempt =>
      if s.sessions[sid].attemptsStarted < cfg.maxAttempts then WithPhase(s, sid, AtGate) else s
    case Gate => GateSection(s, sid)
    case Wake => WithPhase(s, sid, AtGate)
    case CancelWait => CancelWaitSection(s, sid)
    case SleepDone => SleepDoneSection(s, sid)
    case CancelSleep => CancelSleepSection(s, sid)
    case RateSection => RateStep(cfg, s, sid)
    case SlotSection => SlotStep(cfg, s, sid)
    case CancelPermit => WithPhase(AbandonProbe(s, sid, s.sessions[sid].phase.permit), sid, Idle)
    case Succeeded =>
      if Unresolved(s, sid) then Resolve(CloseEpisode(s, sid, s.sessions[sid].phase.permit), sid) else s
    case RetryImmediately =>
      if Unresolved(s, sid) then Resolve(CorrectProbe(s, sid, s.sessions[sid].phase.permit), sid) else s
    case Retry(report) =>
      if Unresolved(s, sid) then Resolve(FailAttempt(cfg, s, sid, s.sessions[sid].phase.permit, report), sid) else s
    case Close(attempt) => if Holds(s, sid, attempt) then CloseAttempt(s, sid) else s
  }

  function OutcomeOf(cfg: Config, before: State, e: Event): Outcome
    requires Enabled(cfg, before, e)
  {
    var sid, s := e.sid, before.(now := e.at);
    match e.action
    case OpenAttempt => if s.sessions[sid].attemptsStarted < cfg.maxAttempts then Silent else BudgetError
    case Gate => GateOutcome(s, sid)
    case SlotSection => SlotOutcome(cfg, s, sid)
    case Retry(report) => MayRetry(Unresolved(s, sid) && report.retryable && CanRetry(cfg, s, sid, report.error))
    case _ => Silent
  }

  function Start(cfg: Config, now: int): State {
    State(now, None, 1, cfg.maxConcurrency, SlidingWindow.Start(cfg.limits, now), map[])
  }
}
