/** `open_attempt` and `run_with_retry` of providers/admission.py as the loops they are.

    The loops run against every environment: a turn says what all other sessions do while this one is
    suspended, when it resumes, and what the caller's function does if that is what it waited for.
    When the turns are used up the caller is cancelled at the wait it has reached. */
module RetryLoop {
  import opened Options
  import opened AdmissionSpec
  import opened AdmissionInvariant
  import opened AdmissionOperations

  datatype CallResult = Returns | Fails(report: FailureReport) | OverrideRaises

  datatype Turn = Turn(others: seq<Event>, at: int, result: CallResult)

  datatype Opened = Admitted | RecoveryFailed(error: ProviderError) | OpenCancelled

  datatype End = Returned | Raised | RecoveryError(error: ProviderError) | Cancelled

  /** An event of another session; one that is not possible does not happen. */
  function AfterOther(cfg: Config, s: State, sid: SessionId, e: Event): State {
    if e.sid != sid && Enabled(cfg, s, e) then Step(cfg, s, e) else s
  }

  function AfterOthers(cfg: Config, s: State, sid: SessionId, others: seq<Event>): State
    decreases |others|
  {
    if others == [] then s else AfterOthers(cfg, AfterOther(cfg, s, sid, others[0]), sid, others[1..])
  }

  /** Other sessions run while `sid` is suspended. */
  method Interfere(cfg: Config, begin: State, sid: SessionId, others: seq<Event>) returns (s: State)
    requires ValidConfig(cfg) && Inv(cfg, begin) && sid in begin.sessions
    ensures Inv(cfg, s) && sid in s.sessions && begin.now <= s.now
    ensures s.sessions[sid].phase == begin.sessions[sid].phase
    ensures s.sessions[sid].attemptsStarted == begin.sessions[sid].attemptsStarted
    ensures s == AfterOthers(cfg, begin, sid, others)
  {
    s := begin;
    for k := 0 to |others|
      invariant AfterOthers(cfg, s, sid, others[k..]) == AfterOthers(cfg, begin, sid, others)
      invariant Inv(cfg, s) && sid in s.sessions && begin.now <= s.now
      invariant s.sessions[sid].phase == begin.sessions[sid].phase
      invariant s.sessions[sid].attemptsStarted == begin.sessions[sid].attemptsStarted
    {
      assert others[k..][1..] == others[k + 1..];
      s := OtherEvent(cfg, s, sid, others[k]);
    }
  }

  method OtherEvent(cfg: Config, begin: State, sid: SessionId, e: Event) returns (s: State)
    requires ValidConfig(cfg) && Inv(cfg, begin) && sid in begin.sessions
    ensures Inv(cfg, s) && sid in s.sessions && begin.now <= s.now
    ensures s.sessions[sid].phase == begin.sessions[sid].phase
    ensures s.sessions[sid].attemptsStarted == begin.sessions[sid].attemptsStarted
    ensures s == AfterOther(cfg, begin, sid, e)
  {
    if e.sid == sid || !Enabled(cfg, begin, e) {
      return begin;
    }
    StepKeepsInv(cfg, begin, e);
    StepMovesOnlyItsSession(cfg, begin, e);
    s := Step(cfg, begin, e);
  }

  predicate InOpenAttempt(phase: Phase) {
    !phase.Idle? && !phase.Attempting? && !phase.ProbeWait?
  }

  /** This session's own section, at the given time or as soon after as the clock allows. */
  method Act(cfg: Config, begin: State, sid: SessionId, at: int, action: Action) returns (s: State, outcome: Outcome)
    requires ValidConfig(cfg) && Inv(cfg, begin) && sid in begin.sessions
    requires Enabled(cfg, begin, Event(sid, at, action))
    ensures s == Step(cfg, begin, Event(sid, at, action)) && outcome == OutcomeOf(cfg, begin, Event(sid, at, action))
    ensures Inv(cfg, s) && sid in s.sessions && s.now == at
    ensures s.sessions[sid].attemptsStarted == begin.sessions[sid].attemptsStarted + if outcome.Claimed? then 1 else 0
  {
    StepKeepsInv(cfg, begin, Event(sid, at, action));
    StepMovesOnlyItsSession(cfg, begin, Event(sid, at, action));
    s := Step(cfg, begin, Event(sid, at, action));
    outcome := OutcomeOf(cfg, begin, Event(sid, at, action));
  }

  /** The section the session is suspended before. */
  function NextSection(phase: Phase): Action
    requires InOpenAttempt(phase)
  {
    match phase
    case AtGate => Gate
    case Waiting(_) => Wake
    case Sleeping(_, _) => SleepDone
    case AwaitingRate(_) => RateSection
    case AwaitingSlot(_) => SlotSection
  }

  /** The section that runs when the session is cancelled at its wait. */
  function CancelSection(phase: Phase): Action
    requires InOpenAttempt(phase) && !phase.AtGate?
  {
    match phase
    case Waiting(_) => CancelWait
    case Sleeping(_, _) => CancelSleep
    case AwaitingRate(_) => CancelPermit
    case AwaitingSlot(_) => CancelPermit
  }

  /** The session was failed with this error, or an episode that is over for good raises it. */
  predicate FailedWith(s: State, sid: SessionId, error: ProviderError)
    requires sid in s.sessions
  {
    || s.sessions[sid].terminalError == Some(error)
    || (&& s.episode.Some? && s.episode.value.terminalUntil.Some?
        && s.now < s.episode.value.terminalUntil.value && s.episode.value.lastError == error)
  }

  lemma CancelSectionEnds(cfg: Config, s: State, sid: SessionId)
    requires Inv(cfg, s) && sid in s.sessions
    requires InOpenAttempt(s.sessions[sid].phase) && !s.sessions[sid].phase.AtGate?
    ensures
      var e := Event(sid, s.now, CancelSection(s.sessions[sid].phase));
      && Enabled(cfg, s, e) && OutcomeOf(cfg, s, e) == Silent
      && sid in Step(cfg, s, e).sessions && Step(cfg, s, e).sessions[sid].phase.Idle?
  {
  }

  lemma NextSectionMoves(cfg: Config, s: State, e: Event)
    requires Inv(cfg, s) && Enabled(cfg, s, e) && e.sid in s.sessions
    requires InOpenAttempt(s.sessions[e.sid].phase) && e.action == NextSection(s.sessions[e.sid].phase)
    ensures
      var after, outcome := Step(cfg, s, e), OutcomeOf(cfg, s, e);
      && e.sid in after.sessions
      && (outcome.Silent? || outcome.Claimed? || outcome.RecoveryExhausted?)
      && (outcome.Silent? ==> InOpenAttempt(after.sessions[e.sid].phase))
      && (outcome.Claimed? ==> Unresolved(after, e.sid))
      && (outcome.RecoveryExhausted? ==> after.sessions[e.sid].phase.Idle? && FailedWith(after, e.sid, outcome.error))
  {
    assert SessionOk(cfg, s.episode, e.sid, s.sessions[e.sid]);
    StepKeepsGate(cfg, s, e);
    assert SessionOk(cfg, Step(cfg, s, e).episode, e.sid, Step(cfg, s, e).sessions[e.sid]);
  }

  /** The session is cancelled at its wait `s` inside `open_attempt`, which leaves `t`. The gate is no wait:
      it is passed first, and may raise the error of an exhausted episode. */
  ghost predicate GivesUp(cfg: Config, s: State, sid: SessionId, t: State) {
    && sid in s.sessions && InOpenAttempt(s.sessions[sid].phase)
    && var gate := Event(sid, s.now, Gate);
       && (s.sessions[sid].phase.AtGate? ==> Enabled(cfg, s, gate))
       && var waits := if s.sessions[sid].phase.AtGate? then Step(cfg, s, gate) else s;
          && sid in waits.sessions
          && if waits.sessions[sid].phase.Idle? then t == waits
             else
               && InOpenAttempt(waits.sessions[sid].phase) && !waits.sessions[sid].phase.AtGate?
               && var e := Event(sid, s.now, CancelSection(waits.sessions[sid].phase));
                  Enabled(cfg, waits, e) && t == Step(cfg, waits, e)
  }

  /** Cancellation inside `open_attempt`: the session ends with nothing held. */
  method CancelOpen(cfg: Config, begin: State, sid: SessionId) returns (s: State, admission: Opened)
    requires ValidConfig(cfg) && Inv(cfg, begin) && sid in begin.sessions
    requires InOpenAttempt(begin.sessions[sid].phase)
    ensures Inv(cfg, s) && sid in s.sessions && s.sessions[sid].phase.Idle?
    ensures s.sessions[sid].attemptsStarted == begin.sessions[sid].attemptsStarted
    ensures GivesUp(cfg, begin, sid, s)
    ensures !admission.Admitted?
    ensures admission.RecoveryFailed? ==>
              FailedWith(s, sid, admission.error) && begin.sessions[sid].phase.AtGate?
  {
    s, admission := begin, OpenCancelled;
    var outcome;
    if s.sessions[sid].phase.AtGate? {
      NextSectionMoves(cfg, s, Event(sid, s.now, Gate));
      s, outcome := Act(cfg, s, sid, s.now, Gate);
      if outcome.RecoveryExhausted? {
        return s, RecoveryFailed(outcome.error);
      }
    }
    CancelSectionEnds(cfg, s, sid);
    s, outcome := Act(cfg, s, sid, s.now, CancelSection(s.sessions[sid].phase));
  }

  /** When the session's section runs: as soon as the turn and the clock allow, and no earlier than a sleep
      was set to end. */
  function TurnTime(s: State, sid: SessionId, turn: Turn): int
    requires sid in s.sessions
  {
    var phase := s.sessions[sid].phase;
    Max(s.now, if phase.Sleeping? then Max(turn.at, phase.wakeAt) else turn.at)
  }

  /** A turn inside `open_attempt`: the others run, then the section the session is suspended before, except
      that one that waits for a slot and finds none goes on waiting. */
  ghost predicate OpenTurned(cfg: Config, s: State, sid: SessionId, turn: Turn, t: State) {
    var m := AfterOthers(cfg, s, sid, turn.others);
    && sid in m.sessions && InOpenAttempt(m.sessions[sid].phase)
    && if m.sessions[sid].phase.AwaitingSlot? && m.freeSlots == 0 then t == m
       else
         var e := Event(sid, TurnTime(m, sid, turn), NextSection(m.sessions[sid].phase));
         Enabled(cfg, m, e) && t == Step(cfg, m, e)
  }

  /** A turn inside the call: the others run, the call ends, its outcome is reported unless the adapter's
      override raised, and the attempt is closed. */
  ghost predicate CallTurned(cfg: Config, s: State, sid: SessionId, turn: Turn, t: State) {
    var m := AfterOthers(cfg, s, sid, turn.others);
    && (turn.result.OverrideRaises? || Enabled(cfg, m, Event(sid, m.now, ReportOf(turn.result))))
    && var r := if turn.result.OverrideRaises? then m else Step(cfg, m, Event(sid, m.now, ReportOf(turn.result)));
       && sid in r.sessions
       && var e := Event(sid, r.now, Close(r.sessions[sid].attemptsStarted));
          Enabled(cfg, r, e) && t == Step(cfg, r, e)
  }

  function ReportOf(result: CallResult): Action
    requires !result.OverrideRaises?
  {
    match result
    case Returns => Succeeded
    case Fails(report) => Retry(report)
  }

  /** One turn inside `open_attempt`: whatever section the session is suspended before. A sleep ends no
      earlier than it was set to, and a session that finds no free slot stays where it is. */
  method OpenTurn(cfg: Config, begin: State, sid: SessionId, turn: Turn) returns (s: State, outcome: Outcome)
    requires ValidConfig(cfg) && Inv(cfg, begin) && sid in begin.sessions
    requires InOpenAttempt(begin.sessions[sid].phase)
    ensures Inv(cfg, s) && sid in s.sessions
    ensures outcome.Silent? || outcome.Claimed? || outcome.RecoveryExhausted?
    ensures outcome.Silent? ==> InOpenAttempt(s.sessions[sid].phase)
    ensures outcome.Claimed? ==> Unresolved(s, sid)
    ensures outcome.RecoveryExhausted? ==> s.sessions[sid].phase.Idle? && FailedWith(s, sid, outcome.error)
    ensures s.sessions[sid].attemptsStarted == begin.sessions[sid].attemptsStarted + if outcome.Claimed? then 1 else 0
    ensures OpenTurned(cfg, begin, sid, turn, s)
  {
    s := Interfere(cfg, begin, sid, turn.others);
    outcome := Silent;
    var phase := s.sessions[sid].phase;
    if phase.AwaitingSlot? && s.freeSlots == 0 {
      return;
    }
    var at := TurnTime(s, sid, turn);
    NextSectionMoves(cfg, s, Event(sid, at, NextSection(phase)));
    s, outcome := Act(cfg, s, sid, at, NextSection(phase));
  }

  /** The call failed in a way that is retried, after so many attempts. */
  predicate Retried(cfg: Config, result: CallResult, claimed: nat) {
    result.Fails? && RetryAllowed(cfg, claimed, result.report)
  }

  /** The session begins to open an attempt, if it is between two. */
  function Begun(cfg: Config, s: State, sid: SessionId): State {
    var e := Event(sid, s.now, Action.OpenAttempt);
    if sid in s.sessions && s.sessions[sid].phase.Idle? && Enabled(cfg, s, e) then Step(cfg, s, e) else s
  }

  /** One turn of `run_with_retry`, inside the call or inside `open_attempt`. */
  ghost predicate TurnTaken(cfg: Config, s: State, sid: SessionId, turn: Turn, t: State) {
    && sid in s.sessions && sid in t.sessions
    && if Unresolved(s, sid) then CallTurned(cfg, s, sid, turn, t)
       else OpenTurned(cfg, Begun(cfg, s, sid), sid, turn, t)
  }

  /** The turn is not the last: the call is retried, or the attempt is not refused. */
  ghost predicate GoesOn(cfg: Config, s: State, sid: SessionId, turn: Turn, t: State)
    requires sid in s.sessions && sid in t.sessions
  {
    if Unresolved(s, sid) then Retried(cfg, turn.result, s.sessions[sid].attemptsStarted)
    else !t.sessions[sid].phase.Idle?
  }

  /** No turn is left: the caller is cancelled in its call, or inside `open_attempt`. */
  ghost predicate Abandons(cfg: Config, s: State, sid: SessionId, t: State) {
    && sid in s.sessions
    && if Unresolved(s, sid) then
         var e := Event(sid, s.now, Close(s.sessions[sid].attemptsStarted));
         Enabled(cfg, s, e) && t == Step(cfg, s, e)
       else GivesUp(cfg, Begun(cfg, s, sid), sid, t)
  }

  ghost predicate OnwardAt(cfg: Config, sid: SessionId, turns: seq<Turn>, path: seq<State>, i: nat)
    requires i + 1 < |path| <= |turns| + 1
  {
    TurnTaken(cfg, path[i], sid, turns[i], path[i + 1]) && GoesOn(cfg, path[i], sid, turns[i], path[i + 1])
  }

  /** The states before each of the turns: every turn is taken, and none of them is the last. */
  ghost predicate Path(cfg: Config, sid: SessionId, turns: seq<Turn>, path: seq<State>) {
    0 < |path| <= |turns| + 1 && forall i | 0 <= i < |path| - 1 :: OnwardAt(cfg, sid, turns, path, i)
  }

  /** The loop is over in state `s`: after its last turn, or cancelled when no turn is left. */
  ghost predicate Over(cfg: Config, sid: SessionId, turns: seq<Turn>, path: seq<State>, s: State) {
    && Path(cfg, sid, turns, path)
    && var last := path[|path| - 1];
       if |path| <= |turns| then
         TurnTaken(cfg, last, sid, turns[|path| - 1], s) && !GoesOn(cfg, last, sid, turns[|path| - 1], s)
       else Abandons(cfg, last, sid, s)
  }

  lemma OneMoreTurn(cfg: Config, sid: SessionId, turns: seq<Turn>, path: seq<State>, t: State)
    requires Path(cfg, sid, turns, path) && |path| <= |turns|
    requires TurnTaken(cfg, path[|path| - 1], sid, turns[|path| - 1], t)
    ensures
      if GoesOn(cfg, path[|path| - 1], sid, turns[|path| - 1], t) then Path(cfg, sid, turns, path + [t])
      else Over(cfg, sid, turns, path, t)
  {
    if GoesOn(cfg, path[|path| - 1], sid, turns[|path| - 1], t) {
      var more := path + [t];
      forall i | 0 <= i < |more| - 1
        ensures OnwardAt(cfg, sid, turns, more, i)
      {
        assert i < |path| - 1 ==> OnwardAt(cfg, sid, turns, path, i);
      }
    }
  }

  /** `open_attempt`: it ends admitted with one more attempt claimed, with the recovery error of
      its session or of a terminal episode, or cancelled, and in the last two cases the session holds
      nothing. `path` are the states before its turns, after those of `before`. */
  method OpenAttempt(cfg: Config, begin: State, sid: SessionId, turns: seq<Turn>, from: nat, ghost before: seq<State>)
    returns (s: State, k: nat, admission: Opened, ghost path: seq<State>)
    requires ValidConfig(cfg) && Inv(cfg, begin) && sid in begin.sessions
    requires begin.sessions[sid].phase.Idle? && begin.sessions[sid].attemptsStarted < cfg.maxAttempts
    requires Path(cfg, sid, turns, before) && |before| == from + 1 && before[from] == begin
    ensures Inv(cfg, s) && sid in s.sessions && from <= k <= |turns|
    ensures admission.Admitted? ==> Unresolved(s, sid)
    ensures !admission.Admitted? ==> s.sessions[sid].phase.Idle?
    ensures admission.RecoveryFailed? ==> FailedWith(s, sid, admission.error)
    ensures admission.OpenCancelled? ==> |path| == |turns| + 1
    ensures s.sessions[sid].attemptsStarted ==
              begin.sessions[sid].attemptsStarted + if admission.Admitted? then 1 else 0
    ensures admission.Admitted? ==> Path(cfg, sid, turns, path) && |path| == k + 1 && path[k] == s
    ensures !admission.Admitted? ==> Over(cfg, sid, turns, path, s) && k == Min(|path|, |turns|)
    ensures path[0] == before[0]
  {
    var outcome;
    s, outcome := Act(cfg, begin, sid, begin.now, Action.OpenAttempt);
    k, path := from, before;
    while k < |turns|
      invariant Inv(cfg, s) && sid in s.sessions && from <= k <= |turns|
      invariant InOpenAttempt(s.sessions[sid].phase)
      invariant s.sessions[sid].attemptsStarted == begin.sessions[sid].attemptsStarted
      invariant Path(cfg, sid, turns, path) && |path| == k + 1 && path[0] == before[0]
      invariant Opening(cfg, path[k], sid, s)
    {
      s, outcome := OpenTurn(cfg, s, sid, turns[k]);
      OneMoreTurn(cfg, sid, turns, path, s);
      k := k + 1;
      if outcome.RecoveryExhausted? {
        return s, k, RecoveryFailed(outcome.error), path;
      }
      path := path + [s];
      if outcome.Claimed? {
        return s, k, Admitted, path;
      }
    }
    s, admission := CancelOpen(cfg, s, sid);
  }

  /** The session is inside `open_attempt` in `s`: it was in `p`, or has begun there. */
  ghost predicate Opening(cfg: Config, p: State, sid: SessionId, s: State) {
    sid in p.sessions && !Unresolved(p, sid) && Begun(cfg, p, sid) == s
  }

  /** What the report on a call leaves of the recovery episode. A probe that was answered, well or with a
      failure that policy does not retry, has closed it; one whose failure is retried leads it on; one
      whose failure exhausts budget or quota has made it terminal; and one that was not reported on holds
      it, or, once the attempt is closed, leaves it without a leader. A normal attempt that is retried
      finds an episode to wait for. */
  ghost predicate Reported(cfg: Config, s: State, sid: SessionId, permit: Permit, claimed: nat, result: CallResult, closed: bool)
    requires sid in s.sessions
  {
    && (permit.Normal? && Retried(cfg, result, claimed) ==>
          && s.episode.Some?
          && (|| s.episode.value.leader == Some(sid)
              || sid in s.episode.value.waiters
              || s.sessions[sid].terminalError.Some?))
    && (permit.Probe? ==>
          if result.Returns? || (result.Fails? && !result.report.retryable) then s.episode.None?
          else
            && s.episode.Some? && s.episode.value.generation == permit.generation
            && if result.OverrideRaises? then
                 && s.episode.value.leader == (if closed then None else Some(sid))
                 && s.episode.value.probeActive == !closed
               else
                 && s.episode.value.lastError == result.report.error && !s.episode.value.probeActive
                 && s.episode.value.leader == (if Retried(cfg, result, claimed) then Some(sid) else None)
                 && (s.episode.value.terminalUntil.Some? <==> !Retried(cfg, result, claimed)))
  }

  lemma ReportIsSeen(cfg: Config, s: State, sid: SessionId, result: CallResult)
    requires Inv(cfg, s) && sid in s.sessions && Unresolved(s, sid) && !result.OverrideRaises?
    requires Enabled(cfg, s, Event(sid, s.now, ReportOf(result)))
    ensures
      var e := Event(sid, s.now, ReportOf(result));
      var permit, claimed := s.sessions[sid].phase.permit, s.sessions[sid].attemptsStarted;
      && sid in Step(cfg, s, e).sessions
      && Step(cfg, s, e).sessions[sid].phase == Attempting(permit, true)
      && Reported(cfg, Step(cfg, s, e), sid, permit, claimed, result, false)
      && (result.Fails? ==> OutcomeOf(cfg, s, e) == MayRetry(Retried(cfg, result, claimed)))
  {
    var e := Event(sid, s.now, ReportOf(result));
    var permit := s.sessions[sid].phase.permit;
    assert SessionOk(cfg, s.episode, sid, s.sessions[sid]);
    assert permit.Probe? ==> HoldsProbe(s.sessions[sid].phase, permit.generation);
    if result.Fails? {
      FailureMoves(cfg, s, e);
    }
  }

  /** The body of the loop once an attempt is admitted: the call, the report on how it ended, and the
      close. It is done again exactly if the call failed in a way that is retried. Without a turn left the
      caller is cancelled inside the call. */
  method CallAndClose(cfg: Config, begin: State, sid: SessionId, turns: seq<Turn>, from: nat)
    returns (s: State, again: bool, end: End)
    requires ValidConfig(cfg) && Inv(cfg, begin) && sid in begin.sessions && from <= |turns|
    requires Unresolved(begin, sid)
    requires begin.sessions[sid].attemptsStarted > 0
    requires JitterInRange(cfg, turns)
    ensures Inv(cfg, s) && sid in s.sessions && s.sessions[sid].phase.Idle?
    ensures s.sessions[sid].attemptsStarted == begin.sessions[sid].attemptsStarted
    ensures again <==> from < |turns| && Retried(cfg, turns[from].result, begin.sessions[sid].attemptsStarted)
    ensures end == if from == |turns| then Cancelled else if turns[from].result.Returns? then Returned else Raised
    ensures
      Reported(cfg, s, sid, begin.sessions[sid].phase.permit, begin.sessions[sid].attemptsStarted,
               if from < |turns| then turns[from].result else OverrideRaises, true)
    ensures if from < |turns| then CallTurned(cfg, begin, sid, turns[from], s) else Abandons(cfg, begin, sid, s)
  {
    s, again, end := begin, false, Cancelled;
    ghost var result := OverrideRaises;
    if from < |turns| {
      s, again := Call(cfg, s, sid, turns[from]);
      end := if turns[from].result.Returns? then Returned else Raised;
      result := turns[from].result;
    } else {
      HeldProbeIsActive(cfg, s, sid);
    }
    s := CloseOpen(cfg, s, sid, result);
  }

  ghost predicate JitterInRange(cfg: Config, turns: seq<Turn>) {
    forall t | t in turns && t.result.Fails? ::
      t.result.report.jitter <= cfg.jitter && t.result.report.terminalJitter <= cfg.jitter
  }

  lemma HeldProbeIsActive(cfg: Config, s: State, sid: SessionId)
    requires Inv(cfg, s) && sid in s.sessions && Unresolved(s, sid)
    ensures Reported(cfg, s, sid, s.sessions[sid].phase.permit, s.sessions[sid].attemptsStarted, OverrideRaises, false)
  {
    var permit := s.sessions[sid].phase.permit;
    assert SessionOk(cfg, s.episode, sid, s.sessions[sid]);
    assert permit.Probe? ==> HoldsProbe(s.sessions[sid].phase, permit.generation);
  }

  /** The call and the report on it; whether the caller is told to retry. */
  method Call(cfg: Config, begin: State, sid: SessionId, turn: Turn) returns (s: State, again: bool)
    requires ValidConfig(cfg) && Inv(cfg, begin) && sid in begin.sessions
    requires Unresolved(begin, sid)
    requires turn.result.Fails? ==>
               turn.result.report.jitter <= cfg.jitter && turn.result.report.terminalJitter <= cfg.jitter
    ensures Inv(cfg, s) && sid in s.sessions
    ensures s.sessions[sid].phase == Attempting(begin.sessions[sid].phase.permit, !turn.result.OverrideRaises?)
    ensures s.sessions[sid].attemptsStarted == begin.sessions[sid].attemptsStarted
    ensures again <==> Retried(cfg, turn.result, begin.sessions[sid].attemptsStarted)
    ensures
      Reported(cfg, s, sid, begin.sessions[sid].phase.permit, begin.sessions[sid].attemptsStarted, turn.result, false)
    ensures
      var m := AfterOthers(cfg, begin, sid, turn.others);
      && (turn.result.OverrideRaises? || Enabled(cfg, m, Event(sid, m.now, ReportOf(turn.result))))
      && s == if turn.result.OverrideRaises? then m else Step(cfg, m, Event(sid, m.now, ReportOf(turn.result)))
  {
    again := false;
    s := Interfere(cfg, begin, sid, turn.others);
    if turn.result.OverrideRaises? {
      HeldProbeIsActive(cfg, s, sid);
      return;
    }
    var outcome;
    ReportIsSeen(cfg, s, sid, turn.result);
    s, outcome := Act(cfg, s, sid, s.now, ReportOf(turn.result));
    if turn.result.Fails? {
      again := outcome.yes;
    }
  }

  /** The attempt is closed in any case. */
  method CloseOpen(cfg: Config, begin: State, sid: SessionId, ghost result: CallResult) returns (s: State)
    requires ValidConfig(cfg) && Inv(cfg, begin) && sid in begin.sessions && begin.sessions[sid].attemptsStarted > 0
    requires begin.sessions[sid].phase.Attempting? && begin.sessions[sid].phase.resolved == !result.OverrideRaises?
    requires
      Reported(cfg, begin, sid, begin.sessions[sid].phase.permit, begin.sessions[sid].attemptsStarted, result, false)
    ensures Inv(cfg, s) && sid in s.sessions && s.sessions[sid].phase.Idle?
    ensures s.sessions[sid].attemptsStarted == begin.sessions[sid].attemptsStarted
    ensures
      Reported(cfg, s, sid, begin.sessions[sid].phase.permit, begin.sessions[sid].attemptsStarted, result, true)
    ensures
      var e := Event(sid, begin.now, Close(begin.sessions[sid].attemptsStarted));
      Enabled(cfg, begin, e) && s == Step(cfg, begin, e)
  {
    var outcome;
    s, outcome := Act(cfg, begin, sid, begin.now, Close(begin.sessions[sid].attemptsStarted));
  }

  /** The turns in which a call ended, in order and before `k`; the first `n` of them were retried. */
  ghost predicate Rounds(cfg: Config, turns: seq<Turn>, called: seq<nat>, k: nat, n: nat) {
    && k <= |turns| && n <= |called|
    && (forall i :: 0 <= i < |called| ==> called[i] < k)
    && (forall i, j :: 0 <= i < j < |called| ==> called[i] < called[j])
    && (forall i :: 0 <= i < n ==> Retried(cfg, turns[called[i]].result, i + 1))
  }

  lemma LaterRound(cfg: Config, turns: seq<Turn>, called: seq<nat>, from: nat, k: nat)
    requires Rounds(cfg, turns, called, from, |called|) && from <= k <= |turns|
    ensures Rounds(cfg, turns, called, k, |called|)
  {
  }

  lemma OneMoreRound(cfg: Config, turns: seq<Turn>, called: seq<nat>, k: nat)
    requires Rounds(cfg, turns, called, k, |called|) && k < |turns|
    ensures
      Rounds(cfg, turns, called + [k], k + 1,
             if Retried(cfg, turns[k].result, |called| + 1) then |called| + 1 else |called|)
  {
  }

  lemma CallTurns(cfg: Config, sid: SessionId, turns: seq<Turn>, path: seq<State>, s: State)
    requires Path(cfg, sid, turns, path) && sid in s.sessions
    requires
      var last, k := path[|path| - 1], |path| - 1;
      && sid in last.sessions && Unresolved(last, sid)
      && if k < |turns| then CallTurned(cfg, last, sid, turns[k], s) else Abandons(cfg, last, sid, s)
    ensures
      var last, k := path[|path| - 1], |path| - 1;
      if k < |turns| && Retried(cfg, turns[k].result, last.sessions[sid].attemptsStarted)
      then Path(cfg, sid, turns, path + [s])
      else Over(cfg, sid, turns, path, s)
  {
    if |path| <= |turns| {
      OneMoreTurn(cfg, sid, turns, path, s);
    }
  }

  /** How the loop ends after so many calls, in the turns `called` but for one that was cancelled: with the
      result of the last call, with its failure when that is not retried, with the error of an exhausted
      episode, or cancelled. Every call before the last was retried. */
  ghost predicate Ended(
    cfg: Config, s: State, sid: SessionId, turns: seq<Turn>, calls: nat, k: nat, end: End, called: seq<nat>)
  {
    && sid in s.sessions && s.sessions[sid].phase.Idle? && calls == s.sessions[sid].attemptsStarted
    && |called| == calls - (if end.Cancelled? && |called| < calls then 1 else 0)
    && Rounds(cfg, turns, called, k, if end.Returned? || end.Raised? then Max(|called| - 1, 0) else |called|)
    && (end.Returned? ==> calls > 0 && called[calls - 1] == k - 1 && turns[k - 1].result.Returns?)
    && (end.Raised? ==>
          && calls > 0 && called[calls - 1] == k - 1
          && !turns[k - 1].result.Returns? && !Retried(cfg, turns[k - 1].result, calls))
    && (end.RecoveryError? ==> FailedWith(s, sid, end.error))
  }

  /** The attempt that the path has led to: its call and its close are the next turn, or the loop is over. */
  method Attempt(
    cfg: Config, begin: State, sid: SessionId, turns: seq<Turn>, from: nat, before: seq<nat>, ghost path: seq<State>)
    returns (s: State, k: nat, again: bool, end: End, called: seq<nat>)
    requires ValidConfig(cfg) && Inv(cfg, begin) && sid in begin.sessions
    requires Unresolved(begin, sid) && begin.sessions[sid].attemptsStarted == |before| + 1
    requires JitterInRange(cfg, turns) && Rounds(cfg, turns, before, from, |before|)
    requires Path(cfg, sid, turns, path) && |path| == from + 1 && path[from] == begin
    ensures Inv(cfg, s) && sid in s.sessions && s.sessions[sid].phase.Idle?
    ensures s.sessions[sid].attemptsStarted == |before| + 1 && k == Min(from + 1, |turns|)
    ensures again <==> from < |turns| && Retried(cfg, turns[from].result, |before| + 1)
    ensures again ==> |called| == |before| + 1 && Rounds(cfg, turns, called, k, |called|)
    ensures !again ==> Ended(cfg, s, sid, turns, |before| + 1, k, end, called)
    ensures end == if from == |turns| then Cancelled else if turns[from].result.Returns? then Returned else Raised
    ensures if again then Path(cfg, sid, turns, path + [s]) else Over(cfg, sid, turns, path, s)
  {
    s, again, end := CallAndClose(cfg, begin, sid, turns, from);
    CallTurns(cfg, sid, turns, path, s);
    k, called := from, before;
    if from < |turns| {
      OneMoreRound(cfg, turns, before, from);
      k, called := from + 1, before + [from];
    }
  }

  /** The session's first state. */
  function Joined(s: State, sid: SessionId): State {
    s.(sessions := s.sessions[sid := Session(0, None, Idle)])
  }

  method Begin(cfg: Config, begin: State, sid: SessionId) returns (s: State)
    requires ValidConfig(cfg) && Inv(cfg, begin) && sid !in begin.sessions
    ensures Inv(cfg, s) && sid in s.sessions && s.sessions[sid].phase.Idle? && s.sessions[sid].attemptsStarted == 0
    ensures s == Joined(begin, sid)
  {
    StepKeepsInv(cfg, begin, Event(sid, begin.now, NewSession));
    s := Step(cfg, begin, Event(sid, begin.now, NewSession));
  }

  /** Once round the loop: an attempt is opened and, if it is admitted, made. */
  method Round(
    cfg: Config, begin: State, sid: SessionId, turns: seq<Turn>, from: nat, before: seq<nat>, ghost past: seq<State>)
    returns (s: State, calls: nat, k: nat, again: bool, end: End, called: seq<nat>, ghost path: seq<State>)
    requires ValidConfig(cfg) && Inv(cfg, begin) && sid in begin.sessions && JitterInRange(cfg, turns)
    requires begin.sessions[sid].phase.Idle? && begin.sessions[sid].attemptsStarted == |before| < cfg.maxAttempts
    requires Rounds(cfg, turns, before, from, |before|)
    requires Path(cfg, sid, turns, past) && |past| == from + 1 && past[from] == begin
    ensures Inv(cfg, s) && path != [] && path[0] == past[0]
    ensures again ==>
              && sid in s.sessions && s.sessions[sid].phase.Idle?
              && s.sessions[sid].attemptsStarted == calls == |called| == |before| + 1 < cfg.maxAttempts
              && Rounds(cfg, turns, called, k, |called|)
              && Path(cfg, sid, turns, path) && |path| == k + 1 && path[k] == s
    ensures !again ==>
              && Ended(cfg, s, sid, turns, calls, k, end, called) && calls <= cfg.maxAttempts
              && Over(cfg, sid, turns, path, s) && k == Min(|path|, |turns|)
              && (end.Cancelled? ==> |path| == |turns| + 1)
  {
    var admission;
    s, k, admission, path := OpenAttempt(cfg, begin, sid, turns, from, past);
    LaterRound(cfg, turns, before, from, k);
    calls, called, again := |before|, before, false;
    match admission {
      case RecoveryFailed(error) => end := RecoveryError(error);
      case OpenCancelled => end := Cancelled;
      case Admitted =>
        calls := calls + 1;
        s, k, again, end, called := Attempt(cfg, s, sid, turns, k, before, path);
        if again {
          path := path + [s];
        }
    }
  }

  /** `run_with_retry`: whatever the others do and however the function behaves, it calls the function
      at most `maxAttempts` times and exactly as long as the calls fail in a way that is retried. `path` are
      the states before its turns, `called` the turns in which a call ended. It is cancelled only when no
      turn is left, never ends with the "session is exhausted" error, and leaves its session holding no slot
      and no probe. Failure reports carry jitter in range. */
  method RunWithRetry(cfg: Config, begin: State, sid: SessionId, turns: seq<Turn>)
    returns (s: State, calls: nat, k: nat, end: End, called: seq<nat>, ghost path: seq<State>)
    requires ValidConfig(cfg) && Inv(cfg, begin) && sid !in begin.sessions
    requires JitterInRange(cfg, turns)
    ensures Inv(cfg, s) && Ended(cfg, s, sid, turns, calls, k, end, called) && calls <= cfg.maxAttempts
    ensures Over(cfg, sid, turns, path, s) && path[0] == Joined(begin, sid) && k == Min(|path|, |turns|)
    ensures end.Cancelled? ==> |path| == |turns| + 1
  {
    s := Begin(cfg, begin, sid);
    calls, k, called, path := 0, 0, [], [s];
    var again;
    while true
      invariant Inv(cfg, s) && sid in s.sessions && s.sessions[sid].phase.Idle?
      invariant s.sessions[sid].attemptsStarted == |called| < cfg.maxAttempts
      invariant Rounds(cfg, turns, called, k, |called|)
      invariant Path(cfg, sid, turns, path) && |path| == k + 1 && path[k] == s && path[0] == Joined(begin, sid)
      decreases cfg.maxAttempts - |called|
    {
      s, calls, k, again, end, called, path := Round(cfg, s, sid, turns, k, called, path);
      if !again {
        return;
      }
    }
  }
}
