/** The fallback loop of application/execution.py (`provider_body`), run against every environment.

    A candidate is what its provider will do: fail to resolve or preflight, fail to open, or open a
    stream that is a script of pulls and of its close. A pull says what it answers and when, and what it
    does if the deadline cancels it first. A non-empty chunk also says what the consumer does at the
    `yield`: resume after a pause or close the generator. Time is an integer. */
module Execution {
  import opened Options

  datatype Failure = Failure(code: nat, retryable: bool)

  /** What reaches the `except ExecutionFailure` clause, and everything else that is raised. */
  datatype Error = Execution(failure: Failure) | Other(code: nat)

  /** The failure that is raised, inside the `try`, when the progress deadline is missed. */
  const PROGRESS_TIMEOUT := Failure(504, false)

  datatype Consumer = Resumes(pause: nat) | Closes

  datatype Answer = Chunk(text: string, consumer: Consumer) | Stops | Raises(error: Error)

  /** What a pull does once the deadline cancels it: let the cancellation (or a `TimeoutError`) through,
      which becomes the timeout failure, or answer all the same. */
  datatype Reaction = LetsThrough(delay: nat) | AnswersLate(delay: nat, late: Answer)

  datatype Pull = Pull(takes: nat, answer: Answer, cancelled: Reaction)

  /** How long closing the stream takes, and what it raises if that is no ordinary exception: a
      cancellation or an exception group, which `close_stream_input` lets through. */
  datatype Closing = Closing(takes: nat, escapes: Option<nat>)

  datatype Candidate =
    | Unusable(error: Error)
    | OpenRaises(error: Error)
    | Opens(pulls: seq<Pull>, closing: Closing)

  datatype End = Finished | Raised(error: Error) | ConsumerClosed

  /** What can be seen of a run from outside, in order. `Overdue` is the deadline cancelling a pull,
      `TimedOut` the timeout failure being raised. */
  datatype Act =
    | Opened(index: nat)
    | Closed(index: nat, at: int)
    | Pulled(index: nat, at: int)
    | Overdue(index: nat, pull: nat, at: int)
    | TimedOut(index: nat, at: int)
    | Emitted(text: string)
    | Resumed(at: int)

  /** A run so far: what it did, whether the current candidate has emitted, how it ended, the clock and
      the progress deadline. */
  datatype Played = Played(acts: seq<Act>, committed: bool, end: End, now: int, deadline: int)

  // ---- One candidate ----

  /** The deadline is missed: the timeout failure is raised. */
  function TimeOut(p: Played, index: nat, at: int): Played {
    p.(acts := p.acts + [TimedOut(index, at)], end := Raised(Execution(PROGRESS_TIMEOUT)), now := at)
  }

  /** The deadline strikes during a pull and cancels it. */
  function Cancel(p: Played, index: nat, k: nat): Played {
    p.(acts := p.acts + [Overdue(index, k, p.deadline)], now := p.deadline)
  }

  /** The pull loop on the open stream of candidate `index`, from its `k`-th pull on. */
  function Play(pulls: seq<Pull>, k: nat, index: nat, timeout: nat, p: Played): Played
    requires k <= |pulls|
    decreases |pulls| - k, 2
  {
    if p.now >= p.deadline then TimeOut(p, index, p.now)
    else
      var pulled := p.(acts := p.acts + [Pulled(index, p.now)]);
      if k == |pulls| then pulled.(end := Finished)
      else if p.now + pulls[k].takes <= p.deadline then
        Got(pulls, k, pulls[k].answer, index, timeout, pulled.(now := p.now + pulls[k].takes))
      else
        var cancelled := Cancel(pulled, index, k);
        match pulls[k].cancelled
        case LetsThrough(delay) => TimeOut(cancelled, index, cancelled.now + delay)
        case AnswersLate(delay, late) =>
          Got(pulls, k, late, index, timeout, cancelled.(now := cancelled.now + delay))
  }

  /** The `k`-th pull has answered. */
  function Got(pulls: seq<Pull>, k: nat, answer: Answer, index: nat, timeout: nat, p: Played): Played
    requires k < |pulls|
    decreases |pulls| - k, 1
  {
    match answer
    case Stops => p.(end := Finished)
    case Raises(error) => p.(end := Raised(error))
    case Chunk(text, consumer) =>
      if text == "" then Play(pulls, k + 1, index, timeout, p)
      else Emit(pulls, k, text, consumer, index, timeout, p)
  }

  /** The `yield` of a non-empty chunk: only when the consumer resumes does the deadline move. */
  function Emit(pulls: seq<Pull>, k: nat, text: string, consumer: Consumer, index: nat, timeout: nat, p: Played): Played
    requires k < |pulls|
    decreases |pulls| - k, 0
  {
    var emitted := p.(acts := p.acts + [Emitted(text)], committed := true);
    match consumer
    case Closes => emitted.(end := ConsumerClosed)
    case Resumes(pause) => Play(pulls, k + 1, index, timeout, Resume(emitted, p.now + pause, timeout))
  }

  function Resume(p: Played, at: int, timeout: nat): Played {
    p.(acts := p.acts + [Resumed(at)], now := at, deadline := at + timeout)
  }

  /** Closing a stream in the `finally`: what escapes from it takes the place of the stream's own end. */
  function EndAfter(closing: Closing, own: End): End {
    match closing.escapes
    case None => own
    case Some(code) => Raised(Other(code))
  }

  function Begun(p: Played, index: nat): Played {
    p.(acts := p.acts + [Opened(index)], committed := false, end := Finished)
  }

  function Close(p: Played, index: nat, closing: Closing): Played {
    var now := p.now + closing.takes;
    p.(acts := p.acts + [Closed(index, now)], now := now, end := EndAfter(closing, p.end))
  }

  /** One turn of the candidate loop, with the stream opened and closed around it. */
  function Attempt(c: Candidate, index: nat, timeout: nat, p: Played): Played {
    match c
    case Unusable(error) => p.(committed := false, end := Raised(error))
    case OpenRaises(error) => p.(committed := false, end := Raised(error))
    case Opens(pulls, closing) => Close(Play(pulls, 0, index, timeout, Begun(p, index)), index, closing)
  }

  /** The loop moves on from an execution failure that is retryable, came before the first non-empty
      chunk, and has a successor. A candidate that cannot be resolved or fails preflight never counts. */
  predicate Advances(c: Candidate, played: Played, last: bool) {
    && !c.Unusable?
    && played.end.Raised?
    && played.end.error.Execution?
    && played.end.error.failure.retryable
    && !played.committed
    && !last
  }

  // ---- The whole body ----

  /** Candidate `index` and, while they advance, the ones after it. */
  function Body(candidates: seq<Candidate>, index: nat, timeout: nat, p: Played): Played
    requires index < |candidates|
    decreases |candidates| - index
  {
    var played := Attempt(candidates[index], index, timeout, p);
    if Advances(candidates[index], played, index + 1 == |candidates|)
    then Body(candidates, index + 1, timeout, played)
    else played
  }

  /** The last candidate the body comes to. */
  function Winner(candidates: seq<Candidate>, index: nat, timeout: nat, p: Played): (w: nat)
    requires index < |candidates|
    ensures index <= w < |candidates|
    decreases |candidates| - index
  {
    var played := Attempt(candidates[index], index, timeout, p);
    if Advances(candidates[index], played, index + 1 == |candidates|)
    then Winner(candidates, index + 1, timeout, played)
    else index
  }

  function Begin(start: int, timeout: nat): Played {
    Played([], false, Finished, start, start + timeout)
  }

  class ProviderExecutor {
    const timeout: nat
    const candidates: seq<Candidate>
    var now: int

    constructor (timeout: nat, candidates: seq<Candidate>, start: int)
      requires timeout > 0 && candidates != []
      ensures this.timeout == timeout && this.candidates == candidates && now == start
    {
      this.timeout, this.candidates, now := timeout, candidates, start;
    }

    /** The inner loop: pull until the stream ends, fails, times out or its consumer closes. */
    method PullAll(pulls: seq<Pull>, index: nat, done: seq<Act>, from: int)
      returns (acts: seq<Act>, committed: bool, end: End, deadline: int)
      modifies this
      ensures Played(acts, committed, end, now, deadline) ==
                Play(pulls, 0, index, timeout, Played(done, false, Finished, old(now), from))
    {
      acts, committed, end, deadline := done, false, Finished, from;
      var k := 0;
      while true
        invariant k <= |pulls| && end == Finished
        invariant Play(pulls, k, index, timeout, Played(acts, committed, end, now, deadline)) ==
                  Play(pulls, 0, index, timeout, Played(done, false, Finished, old(now), from))
        decreases |pulls| - k
      {
        if now >= deadline {
          acts, end := acts + [TimedOut(index, now)], Raised(Execution(PROGRESS_TIMEOUT));
          return;
        }
        acts := acts + [Pulled(index, now)];
        if k == |pulls| {
          return;
        }
        var answer := pulls[k].answer;
        if now + pulls[k].takes <= deadline {
          now := now + pulls[k].takes;
        } else {
          now := deadline;
          acts := acts + [Overdue(index, k, now)];
          now := now + pulls[k].cancelled.delay;
          if pulls[k].cancelled.LetsThrough? {
            acts, end := acts + [TimedOut(index, now)], Raised(Execution(PROGRESS_TIMEOUT));
            return;
          }
          answer := pulls[k].cancelled.late;
        }
        assert Got(pulls, k, answer, index, timeout, Played(acts, committed, end, now, deadline)) ==
               Play(pulls, 0, index, timeout, Played(done, false, Finished, old(now), from));
        match answer {
          case Stops => return;
          case Raises(error) =>
            end := Raised(error);
            return;
          case Chunk(text, consumer) =>
            if text != "" {
              assert Emit(pulls, k, text, consumer, index, timeout, Played(acts, committed, end, now, deadline)) ==
                     Play(pulls, 0, index, timeout, Played(done, false, Finished, old(now), from));
              committed := true;
              acts := acts + [Emitted(text)];
              if consumer.Closes? {
                end := ConsumerClosed;
                return;
              }
              now := now + consumer.pause;
              acts := acts + [Resumed(now)];
              deadline := now + timeout;
            }
        }
        k := k + 1;
      }
    }

    /** `provider_body`: try the candidates in order under one shared progress deadline. */
    method ProviderBody() returns (acts: seq<Act>, end: End)
      requires candidates != []
      modifies this
      ensures
        var body := Body(candidates, 0, timeout, Begin(old(now), timeout));
        acts == body.acts && end == body.end && now == body.now
    {
      acts, end := [], Finished;
      var deadline, committed, index := now + timeout, false, 0;
      while true
        invariant index < |candidates|
        invariant Body(candidates, index, timeout, Played(acts, committed, end, now, deadline)) ==
                  Body(candidates, 0, timeout, Begin(old(now), timeout))
        decreases |candidates| - index
      {
        committed := false;
        match candidates[index] {
          case Unusable(error) => return acts, Raised(error);
          case OpenRaises(error) => end := Raised(error);
          case Opens(pulls, closing) =>
            acts := acts + [Opened(index)];
            acts, committed, end, deadline := PullAll(pulls, index, acts, deadline);
            now := now + closing.takes;
            acts := acts + [Closed(index, now)];
            if closing.escapes.Some? {
              return acts, Raised(Other(closing.escapes.value));
            }
        }
        if !end.Raised? || !end.error.Execution? {
          return;
        }
        if committed || !end.error.failure.retryable || index + 1 >= |candidates| {
          return;
        }
        index := index + 1;
      }
    }
  }
}
