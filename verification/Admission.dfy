/** The objects of providers/admission.py. Each method is one atomic section and is proved to move the
    abstract state exactly as `AdmissionSpec.Step` says; the promises about runs are in AdmissionRuns. */
module Admission {
  import opened Options
  import opened AdmissionSpec
  import SlidingWindow

  class ProviderRetrySession {
    const id: SessionId
    var attemptsStarted: nat
    var terminalError: Option<ProviderError>
    var phase: Phase

    constructor (id: SessionId)
      ensures this.id == id && View() == Session(0, None, Idle)
    {
      this.id := id;
      attemptsStarted, terminalError, phase := 0, None, Idle;
    }

    function View(): Session
      reads this
    {
      Session(attemptsStarted, terminalError, phase)
    }
  }

  class RecoveryEpisode {
    const generation: nat
    var leader: Option<SessionId>
    var readyAt: int
    var lastError: ProviderError
    var waiters: set<SessionId>
    var probeActive: bool
    var terminalUntil: Option<int>

    constructor (generation: nat, leader: Option<SessionId>, readyAt: int, lastError: ProviderError)
      ensures View() == Episode(generation, leader, readyAt, lastError, {}, false, None)
    {
      this.generation, this.leader, this.readyAt, this.lastError := generation, leader, readyAt, lastError;
      waiters, probeActive, terminalUntil := {}, false, None;
    }

    function View(): Episode
      reads this
    {
      Episode(generation, leader, readyAt, lastError, waiters, probeActive, terminalUntil)
    }
  }

  class ProviderAdmissionController {
    const cfg: Config
    const limiter: SlidingWindow.StrictSlidingWindowLimiter
    var episode: RecoveryEpisode?
    var nextGeneration: nat
    var freeSlots: nat
    var sessions: map<SessionId, ProviderRetrySession>
    var clock: int

    ghost predicate Valid()
      reads this, limiter, sessions.Values
    {
      && ValidConfig(cfg)
      && limiter.Valid()
      && limiter.limits == cfg.limits
      && (forall i | i in sessions :: sessions[i].id == i)
    }

    ghost function Sessions(): map<SessionId, Session>
      reads this, sessions.Values
    {
      map i | i in sessions :: sessions[i].View()
    }

    ghost function Current(): Option<Episode>
      reads this, episode
    {
      if episode == null then None else Some(episode.View())
    }

    ghost function View(): State
      reads this, episode, limiter, sessions.Values
    {
      State(clock, Current(), nextGeneration, freeSlots, limiter.window, Sessions())
    }

    constructor (cfg: Config, now: int)
      requires ValidConfig(cfg)
      ensures Valid() && this.cfg == cfg && View() == Start(cfg, now)
    {
      this.cfg := cfg;
      limiter := new SlidingWindow.StrictSlidingWindowLimiter(cfg.limits.rateLimit, cfg.limits.rateWindow, now);
      episode, nextGeneration, freeSlots, sessions, clock := null, 1, cfg.maxConcurrency, map[], now;
    }

    method NewRetrySession(sid: SessionId, now: int)
      requires Valid() && Enabled(cfg, View(), Event(sid, now, NewSession))
      modifies this
      ensures Valid() && View() == Step(cfg, old(View()), Event(sid, now, NewSession))
    {
      clock := now;
      var session := new ProviderRetrySession(sid);
      sessions := sessions[sid := session];
    }

    method Tick(now: int)
      requires Valid()
      modifies this`clock
      ensures Valid() && View() == old(View()).(now := now)
    {
      clock := now;
    }

    method MoveTo(sid: SessionId, phase: Phase)
      requires Valid() && sid in sessions
      modifies sessions[sid]
      ensures Valid() && View() == WithPhase(old(View()), sid, phase)
    {
      sessions[sid].phase := phase;
    }

    predicate IsCurrent(sid: SessionId, permit: Permit)
      requires Valid()
      reads this, episode, limiter, sessions.Values
      ensures IsCurrent(sid, permit) == PermitIsCurrent(View(), sid, permit)
    {
      if permit.Normal? then episode == null
      else
        && episode != null
        && episode.generation == permit.generation
        && episode.terminalUntil.None?
        && episode.leader == Some(sid)
        && episode.probeActive
    }

    predicate Matches(sid: SessionId, permit: Permit)
      requires Valid()
      reads this, episode, limiter, sessions.Values
      ensures Matches(sid, permit) == MatchingProbe(View(), sid, permit)
    {
      && permit.Probe?
      && episode != null
      && episode.generation == permit.generation
      && episode.leader == Some(sid)
      && episode.probeActive
    }

    method AbandonProbePermit(sid: SessionId, permit: Permit)
      requires Valid()
      modifies episode
      ensures Valid() && View() == AbandonProbe(old(View()), sid, permit)
    {
      if Matches(sid, permit) {
        episode.leader := None;
        episode.probeActive := false;
        episode.readyAt := clock;
      }
    }

    method StartRecoveryEpisode(leader: Option<SessionId>, readyAt: int, lastError: ProviderError)
      requires Valid()
      modifies this`episode, this`nextGeneration
      ensures Valid() && fresh(episode) && View() == StartEpisode(old(View()), leader, readyAt, lastError)
    {
      episode := new RecoveryEpisode(nextGeneration, leader, readyAt, lastError);
      nextGeneration := nextGeneration + 1;
    }

    // ---- open_attempt ----

    method OpenAttempt(sid: SessionId, now: int) returns (outcome: Outcome)
      requires Valid() && Enabled(cfg, View(), Event(sid, now, Action.OpenAttempt))
      modifies this`clock, sessions.Values
      ensures Valid() && View() == Step(cfg, old(View()), Event(sid, now, Action.OpenAttempt))
      ensures outcome == OutcomeOf(cfg, old(View()), Event(sid, now, Action.OpenAttempt))
    {
      Tick(now);
      if sessions[sid].attemptsStarted >= cfg.maxAttempts {
        return BudgetError;
      }
      MoveTo(sid, AtGate);
      outcome := Silent;
    }

    /** One pass of `_wait_for_gate`: a permit, a wait, a sleep or the exhausted error. */
    method GatePass(sid: SessionId, now: int) returns (outcome: Outcome)
      requires Valid() && Enabled(cfg, View(), Event(sid, now, Gate))
      modifies this`clock, this`episode, this`nextGeneration, episode, sessions.Values
      ensures Valid() && (episode == old(episode) || fresh(episode))
      ensures View() == Step(cfg, old(View()), Event(sid, now, Gate))
      ensures outcome == OutcomeOf(cfg, old(View()), Event(sid, now, Gate))
    {
      Tick(now);
      ghost var before := View();
      assert before == old(View()).(now := now);
      outcome := Silent;
      if sessions[sid].terminalError.Some? {
        outcome := RecoveryExhausted(sessions[sid].terminalError.value);
        MoveTo(sid, Idle);
      } else if episode == null {
        MoveTo(sid, AwaitingRate(Normal));
      } else if episode.terminalUntil.None? {
        LeadOrWait(sid);
      } else if now < episode.terminalUntil.value {
        outcome := RecoveryExhausted(episode.lastError);
        MoveTo(sid, Idle);
      } else {
        StartRecoveryEpisode(Some(sid), now, episode.lastError);
        LeadOrWait(sid);
      }
      assert View() == GateSection(before, sid);
    }

    /** The gate while a recovery episode is open: lead it, sleep for it, probe for it or wait for it. */
    method LeadOrWait(sid: SessionId)
      requires Valid() && sid in sessions && episode != null
      modifies episode, sessions.Values
      ensures Valid() && View() == PassOpenEpisode(old(View()), sid)
    {
      if episode.leader.None? {
        TakeLead(sid);
      }
      if episode.leader == Some(sid) {
        if episode.probeActive {
          MoveTo(sid, ProbeWait);
        } else if clock >= episode.readyAt {
          StartProbe();
          MoveTo(sid, AwaitingRate(Probe(episode.generation)));
        } else {
          MoveTo(sid, Sleeping(episode.generation, episode.readyAt));
        }
      } else {
        JoinWaiters(sid);
        MoveTo(sid, Waiting(episode.generation));
      }
    }

    method StartProbe()
      requires Valid() && episode != null
      modifies episode
      ensures Valid() && View() == old(View()).(episode := Some(old(episode.View()).(probeActive := true)))
    {
      episode.probeActive := true;
    }

    method JoinWaiters(sid: SessionId)
      requires Valid() && episode != null
      modifies episode
      ensures Valid()
      ensures View() == old(View()).(episode := Some(old(episode.View()).(waiters := old(episode.waiters) + {sid})))
    {
      episode.waiters := episode.waiters + {sid};
    }

    method TakeLead(sid: SessionId)
      requires Valid() && episode != null
      modifies episode
      ensures Valid()
      ensures View() == old(View()).(episode := Some(old(episode.View()).(
                          leader := Some(sid), waiters := old(episode.waiters) - {sid})))
    {
      episode.leader := Some(sid);
      episode.waiters := episode.waiters - {sid};
    }

    /** The condition was notified: the waiter goes back to the top of the loop. */
    method WakeUp(sid: SessionId, now: int)
      requires Valid() && Enabled(cfg, View(), Event(sid, now, Wake))
      modifies this`clock, sessions.Values
      ensures Valid() && View() == Step(cfg, old(View()), Event(sid, now, Wake))
    {
      Tick(now);
      MoveTo(sid, AtGate);
    }

    method WaitCancelled(sid: SessionId, now: int)
      requires Valid() && Enabled(cfg, View(), Event(sid, now, CancelWait))
      modifies this`clock, episode, sessions.Values
      ensures Valid() && View() == Step(cfg, old(View()), Event(sid, now, CancelWait))
    {
      Tick(now);
      var phase := sessions[sid].phase;
      if phase.Waiting? && episode != null && episode.generation == phase.generation {
        LeaveWaiters(sid);
      }
      MoveTo(sid, Idle);
    }

    method LeaveWaiters(sid: SessionId)
      requires Valid() && episode != null
      modifies episode
      ensures Valid()
      ensures View() == old(View()).(episode := Some(old(episode.View()).(waiters := old(episode.waiters) - {sid})))
    {
      episode.waiters := episode.waiters - {sid};
    }

    method SleepOver(sid: SessionId, now: int)
      requires Valid() && Enabled(cfg, View(), Event(sid, now, SleepDone))
      modifies this`clock, episode, sessions.Values
      ensures Valid() && View() == Step(cfg, old(View()), Event(sid, now, SleepDone))
    {
      Tick(now);
      var claimed := sessions[sid].phase.generation;
      if && episode != null
         && episode.generation == claimed
         && episode.terminalUntil.None?
         && episode.leader == Some(sid)
         && !episode.probeActive
      {
        episode.probeActive := true;
        MoveTo(sid, AwaitingRate(Probe(claimed)));
      } else {
        MoveTo(sid, AtGate);
      }
    }

    /** `_abandon_waiting_leader`. */
    method SleepCancelled(sid: SessionId, now: int)
      requires Valid() && Enabled(cfg, View(), Event(sid, now, CancelSleep))
      modifies this`clock, episode, sessions.Values
      ensures Valid() && View() == Step(cfg, old(View()), Event(sid, now, CancelSleep))
    {
      Tick(now);
      var claimed := sessions[sid].phase.generation;
      if episode != null && episode.generation == claimed && episode.leader == Some(sid) && !episode.probeActive {
        GiveUpLead();
      }
      MoveTo(sid, Idle);
    }

    method GiveUpLead()
      requires Valid() && episode != null
      modifies episode
      ensures Valid() && View() == old(View()).(episode := Some(old(episode.View()).(leader := None)))
    {
      episode.leader := None;
    }

    /** One section of the sliding window on the session's behalf. */
    method AcquireRate(sid: SessionId, now: int)
      requires Valid() && Enabled(cfg, View(), Event(sid, now, RateSection))
      modifies this`clock, episode, limiter, sessions.Values
      ensures Valid() && View() == Step(cfg, old(View()), Event(sid, now, RateSection))
    {
      Tick(now);
      var permit := sessions[sid].phase.permit;
      ghost var before := View();
      assert before == old(View()).(now := now);
      var decision := limiter.AcquireSection(now, now, IsCurrent(sid, permit));
      assert View() == before.(window := limiter.window);
      match decision {
        case Recorded => MoveTo(sid, AwaitingSlot(permit));
        case Rejected =>
          AbandonProbePermit(sid, permit);
          MoveTo(sid, AtGate);
        case MustWait(_) =>
      }
    }

    /** The semaphore granted a slot. */
    method ClaimSlot(sid: SessionId, now: int) returns (outcome: Outcome)
      requires Valid() && Enabled(cfg, View(), Event(sid, now, SlotSection))
      modifies this`clock, this`freeSlots, episode, sessions.Values
      ensures Valid() && View() == Step(cfg, old(View()), Event(sid, now, SlotSection))
      ensures outcome == OutcomeOf(cfg, old(View()), Event(sid, now, SlotSection))
    {
      Tick(now);
      outcome := UseSlot(sid);
    }

    method UseSlot(sid: SessionId) returns (outcome: Outcome)
      requires Valid() && sid in sessions && sessions[sid].phase.AwaitingSlot? && freeSlots > 0
      modifies this`freeSlots, episode, sessions.Values
      ensures Valid() && View() == SlotStep(cfg, old(View()), sid)
      ensures outcome == SlotOutcome(cfg, old(View()), sid)
    {
      TakeSlot();
      var permit := sessions[sid].phase.permit;
      if IsCurrent(sid, permit) && sessions[sid].attemptsStarted < cfg.maxAttempts {
        StartAttempt(sid, permit);
        return Claimed;
      }
      outcome := if IsCurrent(sid, permit) then BudgetError else Silent;
      ReleaseSlot();
      assert View() == old(View());
      AbandonProbePermit(sid, permit);
      MoveTo(sid, if outcome.BudgetError? then Idle else AtGate);
    }

    method StartAttempt(sid: SessionId, permit: Permit)
      requires Valid() && sid in sessions
      modifies sessions.Values
      ensures Valid()
      ensures View() == old(View()).(sessions := old(Sessions())[sid := Session(
                          old(sessions[sid].attemptsStarted) + 1, old(sessions[sid].terminalError), Attempting(permit, false))])
    {
      sessions[sid].attemptsStarted := sessions[sid].attemptsStarted + 1;
      sessions[sid].phase := Attempting(permit, false);
    }

    /** Cancelled between the permit and the claim. */
    method PermitCancelled(sid: SessionId, now: int)
      requires Valid() && Enabled(cfg, View(), Event(sid, now, CancelPermit))
      modifies this`clock, episode, sessions.Values
      ensures Valid() && View() == Step(cfg, old(View()), Event(sid, now, CancelPermit))
    {
      Tick(now);
      AbandonProbePermit(sid, sessions[sid].phase.permit);
      MoveTo(sid, Idle);
    }

    // ---- ProviderAttempt ----

    method ResolveAttempt(sid: SessionId)
      requires Valid() && sid in sessions && sessions[sid].phase.Attempting?
      modifies sessions.Values
      ensures Valid() && View() == Resolve(old(View()), sid)
    {
      MoveTo(sid, Attempting(sessions[sid].phase.permit, true));
    }

    /** `_attempt_succeeded` and `_attempt_rejected`. */
    method CloseProbedEpisode(sid: SessionId, permit: Permit)
      requires Valid()
      modifies this`episode
      ensures Valid() && (episode == old(episode) || episode == null)
      ensures View() == CloseEpisode(old(View()), sid, permit)
    {
      if Matches(sid, permit) {
        episode := null;
      }
    }

    method AttemptSucceeded(sid: SessionId, now: int)
      requires Valid() && Enabled(cfg, View(), Event(sid, now, Succeeded))
      modifies this`clock, this`episode, sessions.Values
      ensures Valid() && (episode == old(episode) || episode == null)
      ensures View() == Step(cfg, old(View()), Event(sid, now, Succeeded))
    {
      Tick(now);
      if sessions[sid].phase.resolved {
        return;
      }
      CloseProbedEpisode(sid, sessions[sid].phase.permit);
      ResolveAttempt(sid);
    }

    method AttemptCorrected(sid: SessionId, now: int)
      requires Valid() && Enabled(cfg, View(), Event(sid, now, RetryImmediately))
      modifies this`clock, episode, sessions.Values
      ensures Valid() && View() == Step(cfg, old(View()), Event(sid, now, RetryImmediately))
    {
      Tick(now);
      if sessions[sid].phase.resolved {
        return;
      }
      CorrectProbedEpisode(sid, sessions[sid].phase.permit);
      ResolveAttempt(sid);
    }

    /** `_attempt_corrected`. */
    method CorrectProbedEpisode(sid: SessionId, permit: Permit)
      requires Valid()
      modifies episode
      ensures Valid() && View() == CorrectProbe(old(View()), sid, permit)
    {
      if Matches(sid, permit) {
        episode.probeActive := false;
        episode.readyAt := clock;
      }
    }

    /** The part of `_attempt_failed` for a failure that may be retried. */
    method JoinOrLead(sid: SessionId, permit: Permit, error: ProviderError, delay: nat)
      requires Valid() && sid in sessions
      modifies this`episode, this`nextGeneration, episode, sessions.Values
      ensures Valid() && (episode == old(episode) || fresh(episode))
      ensures View() == JoinRecovery(old(View()), sid, permit, error, delay)
    {
      if episode == null {
        StartRecoveryEpisode(Some(sid), clock + delay, error);
      } else if Matches(sid, permit) {
        episode.lastError := error;
        episode.probeActive := false;
        episode.readyAt := clock + delay;
      } else if episode.terminalUntil.Some? {
        sessions[sid].terminalError := Some(episode.lastError);
      } else {
        JoinWaiters(sid);
      }
    }

    /** The fan-out loop: every waiter that still has a session fails with the episode's error. */
    method FailRecovery(waiters: set<SessionId>, error: ProviderError)
      requires Valid()
      modifies sessions.Values
      ensures Valid()
      ensures View() == old(View()).(sessions := FailWaiters(old(Sessions()), waiters, error))
    {
      var left := waiters;
      while left != {}
        invariant left <= waiters && Valid()
        invariant View() == old(View()).(sessions := FailWaiters(old(Sessions()), waiters - left, error))
        decreases |left|
      {
        var waiter :| waiter in left;
        if waiter in sessions {
          sessions[waiter].terminalError := Some(error);
        }
        left := left - {waiter};
      }
      assert waiters - left == waiters;
    }

    /** The part of `_attempt_failed` for a failure out of budget or quota. */
    method Exhaust(sid: SessionId, permit: Permit, error: ProviderError, delay: nat)
      requires Valid() && sid in sessions
      modifies this`episode, this`nextGeneration, episode, sessions.Values
      ensures Valid() && (episode == old(episode) || fresh(episode))
      ensures View() == ExhaustRecovery(old(View()), sid, permit, error, delay)
    {
      if episode != null && !Matches(sid, permit) {
        return;
      }
      if episode == null {
        StartRecoveryEpisode(None, clock, error);
      }
      MarkTerminal(error, clock + delay);
      ghost var marked := View();
      FailRecovery(episode.waiters, error);
      assert View() == marked.(sessions := FailWaiters(marked.sessions, marked.episode.value.waiters, error));
      episode.waiters := {};
    }

    method MarkTerminal(error: ProviderError, until: int)
      requires Valid() && episode != null
      modifies episode
      ensures Valid()
      ensures View() == old(View()).(episode := Some(old(episode.View()).(
                          lastError := error, leader := None, probeActive := false, terminalUntil := Some(until))))
    {
      episode.lastError := error;
      episode.leader := None;
      episode.probeActive := false;
      episode.terminalUntil := Some(until);
    }

    /** What an unresolved attempt's failure does to the episode and its waiters. */
    method FailProbe(sid: SessionId, permit: Permit, report: FailureReport) returns (mayRetry: bool)
      requires Valid() && sid in sessions
      modifies this`episode, this`nextGeneration, episode, sessions.Values
      ensures Valid() && (episode == old(episode) || episode == null || fresh(episode))
      ensures View() == FailAttempt(cfg, old(View()), sid, permit, report)
      ensures mayRetry == (report.retryable && CanRetry(cfg, old(View()), sid, report.error))
    {
      var attempt := sessions[sid].attemptsStarted;
      var signal := SignalOf(cfg, report.error);
      var quotaExhausted := signal.Some? && signal.value.Exhausted();
      mayRetry := false;
      if !report.retryable {
        CloseProbedEpisode(sid, permit);
      } else if attempt < cfg.maxAttempts && !quotaExhausted {
        JoinOrLead(sid, permit, report.error, RetryDelay(cfg, report.error, attempt, report.jitter));
        mayRetry := true;
      } else {
        Exhaust(sid, permit, report.error, RetryDelay(cfg, report.error, attempt, report.terminalJitter));
      }
    }

    /** `ProviderAttempt.retry` with the policy's verdict on the error already taken. */
    method ReportFailure(sid: SessionId, now: int, report: FailureReport) returns (mayRetry: bool)
      requires Valid() && Enabled(cfg, View(), Event(sid, now, Retry(report)))
      modifies this`clock, this`episode, this`nextGeneration, episode, sessions.Values
      ensures Valid() && (episode == old(episode) || episode == null || fresh(episode))
      ensures View() == Step(cfg, old(View()), Event(sid, now, Retry(report)))
      ensures MayRetry(mayRetry) == OutcomeOf(cfg, old(View()), Event(sid, now, Retry(report)))
    {
      Tick(now);
      if sessions[sid].phase.resolved {
        return false;
      }
      mayRetry := FailProbe(sid, sessions[sid].phase.permit, report);
      ResolveAttempt(sid);
    }

    /** `ProviderAttempt.aclose` of the session's `attempt`-th attempt. */
    method CloseAttempt(sid: SessionId, attempt: nat, now: int)
      requires Valid() && Enabled(cfg, View(), Event(sid, now, Close(attempt)))
      modifies this`clock, this`freeSlots, episode, sessions.Values
      ensures Valid() && View() == Step(cfg, old(View()), Event(sid, now, Close(attempt)))
    {
      Tick(now);
      var phase := sessions[sid].phase;
      if !phase.Attempting? || sessions[sid].attemptsStarted != attempt {
        return;
      }
      if !phase.resolved {
        AbandonProbePermit(sid, phase.permit);
      }
      ReleaseSlot();
      MoveTo(sid, Idle);
    }

    method TakeSlot()
      requires Valid() && freeSlots > 0
      modifies this`freeSlots
      ensures Valid() && View() == old(View()).(freeSlots := old(freeSlots) - 1)
    {
      freeSlots := freeSlots - 1;
    }

    method ReleaseSlot()
      requires Valid()
      modifies this`freeSlots
      ensures Valid() && View() == old(View()).(freeSlots := old(freeSlots) + 1)
    {
      freeSlots := freeSlots + 1;
    }
  }
}
