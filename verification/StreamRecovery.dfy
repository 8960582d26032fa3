/** The holdback buffer and failure decisions of providers/stream_recovery.py.

    `Recovery` is the state of one controller: its current buffer, everything the caller was given to
    send on (`delivered`) and every frame pushed since the last discard point (`since`). */
module StreamRecovery {
  import opened Options

  datatype Frame = Frame(text: string, size: nat)

  datatype Buffer = Buffer(events: seq<Frame>, bytes: nat, startedAt: Option<int>, committed: bool)

  datatype Limits = Limits(holdback: nat, maxBytes: nat)

  datatype Recovery = Recovery(buffer: Buffer, delivered: seq<Frame>, since: seq<Frame>)

  datatype FailureAction = EarlyRetry | MidstreamRecovery | FinalError

  datatype Decision = Decision(action: FailureAction, retryable: bool, committed: bool, hasBuffered: bool)

  /** What the caller knows of one upstream failure. */
  datatype Report = Report(
    retryable: bool, streamOpened: bool, generatedOutput: bool, toolSalvageable: bool, attemptsRemaining: int)

  datatype Op =
    | Push(frame: Frame, first: int, second: int)
    | Flush
    | Discard
    | Fail(report: Report)
    | FlushUncommitted(decision: Decision)

  function EmptyBuffer(): Buffer {
    Buffer([], 0, None, false)
  }

  // ---- The buffer ----

  function FlushBuffer(b: Buffer): Buffer {
    if b.committed then b else Buffer([], 0, None, true)
  }

  function Flushed(b: Buffer): seq<Frame> {
    if b.committed then [] else b.events
  }

  /** The buffer with the frame in it, before the limits are looked at. */
  function Held(b: Buffer, frame: Frame, first: int): Buffer {
    b.(events := b.events + [frame],
       bytes := b.bytes + frame.size,
       startedAt := if b.startedAt.None? then Some(first) else b.startedAt)
  }

  predicate MustFlush(limits: Limits, held: Buffer, second: int)
    requires held.startedAt.Some?
  {
    held.bytes >= limits.maxBytes || second - held.startedAt.value >= limits.holdback
  }

  function PushBuffer(limits: Limits, b: Buffer, frame: Frame, first: int, second: int): Buffer {
    if b.committed then b
    else
      var held := Held(b, frame, first);
      if MustFlush(limits, held, second) then FlushBuffer(held) else held
  }

  function Pushed(limits: Limits, b: Buffer, frame: Frame, first: int, second: int): seq<Frame> {
    if b.committed then [frame]
    else
      var held := Held(b, frame, first);
      if MustFlush(limits, held, second) then Flushed(held) else []
  }

  // ---- Decisions ----

  predicate RetriesEarly(b: Buffer, r: Report) {
    && r.retryable && r.attemptsRemaining > 0 && r.streamOpened && !b.committed && !r.toolSalvageable
    && !(r.generatedOutput && r.attemptsRemaining == 1)
  }

  function Decide(b: Buffer, r: Report): Decision {
    if RetriesEarly(b, r) then Decision(EarlyRetry, true, false, b.events != [])
    else if r.retryable && r.generatedOutput && (r.attemptsRemaining > 0 || r.toolSalvageable) then
      Decision(MidstreamRecovery, true, b.committed, b.events != [])
    else Decision(FinalError, r.retryable, b.committed, b.events != [])
  }

  // ---- The controller ----

  function FlushAll(c: Recovery): Recovery {
    c.(buffer := FlushBuffer(c.buffer), delivered := c.delivered + Flushed(c.buffer))
  }

  function Step(limits: Limits, c: Recovery, op: Op): Recovery {
    match op
    case Push(frame, first, second) =>
      Recovery(PushBuffer(limits, c.buffer, frame, first, second),
               c.delivered + Pushed(limits, c.buffer, frame, first, second),
               c.since + [frame])
    case Flush => FlushAll(c)
    case Discard =>
      c.(buffer := Buffer([], 0, None, c.buffer.committed), since := if c.buffer.committed then c.since else [])
    case Fail(report) => if RetriesEarly(c.buffer, report) then c.(buffer := EmptyBuffer(), since := []) else c
    case FlushUncommitted(decision) => if !decision.committed && decision.hasBuffered then FlushAll(c) else c
  }

  function Run(limits: Limits, c: Recovery, ops: seq<Op>): Recovery
    decreases |ops|
  {
    if ops == [] then c else Run(limits, Step(limits, c, ops[0]), ops[1..])
  }

  function Begin(): Recovery {
    Recovery(EmptyBuffer(), [], [])
  }

  // ---- Invariant ----

  function TotalSize(frames: seq<Frame>): nat {
    if frames == [] then 0 else TotalSize(frames[..|frames| - 1]) + frames[|frames| - 1].size
  }

  lemma TotalOneMore(frames: seq<Frame>, frame: Frame)
    ensures TotalSize(frames + [frame]) == TotalSize(frames) + frame.size
  {
    assert (frames + [frame])[..|frames|] == frames;
  }

  ghost predicate Inv(limits: Limits, c: Recovery) {
    var b := c.buffer;
    && c.delivered + b.events == c.since
    && (b.committed ==> b.events == [])
    && (!b.committed ==> c.delivered == [] && b.bytes < limits.maxBytes)
    && b.bytes == TotalSize(b.events)
    && (b.startedAt.Some? <==> b.events != [])
  }

  /** Frames that pass straight through, or are held, or are delivered with everything held. */
  lemma PushPasses(limits: Limits, c: Recovery, frame: Frame)
    requires Inv(limits, c) && c.buffer.committed
    ensures Inv(limits, Recovery(c.buffer, c.delivered + [frame], c.since + [frame]))
  {
    assert c.delivered + [] == c.delivered;
    assert (c.delivered + [frame]) + [] == c.delivered + [frame];
  }

  lemma PushHolds(limits: Limits, c: Recovery, frame: Frame, first: int)
    requires Inv(limits, c) && !c.buffer.committed && c.buffer.bytes + frame.size < limits.maxBytes
    ensures Inv(limits, Recovery(Held(c.buffer, frame, first), c.delivered + [], c.since + [frame]))
  {
    TotalOneMore(c.buffer.events, frame);
    assert [] + c.buffer.events == c.buffer.events;
    assert ([] + []) + (c.buffer.events + [frame]) == c.buffer.events + [frame];
  }

  lemma PushDelivers(limits: Limits, c: Recovery, frame: Frame)
    requires Inv(limits, c) && !c.buffer.committed
    ensures Inv(limits, Recovery(Buffer([], 0, None, true), c.delivered + (c.buffer.events + [frame]), c.since + [frame]))
  {
    assert [] + c.buffer.events == c.buffer.events;
    assert ([] + (c.buffer.events + [frame])) + [] == c.buffer.events + [frame];
  }

  lemma PushKeepsInv(limits: Limits, c: Recovery, frame: Frame, first: int, second: int)
    requires limits.maxBytes > 0 && Inv(limits, c)
    ensures Inv(limits, Step(limits, c, Push(frame, first, second)))
  {
    if c.buffer.committed {
      PushPasses(limits, c, frame);
    } else if MustFlush(limits, Held(c.buffer, frame, first), second) {
      PushDelivers(limits, c, frame);
    } else {
      PushHolds(limits, c, frame, first);
    }
  }

  lemma StepKeepsInv(limits: Limits, c: Recovery, op: Op)
    requires limits.maxBytes > 0 && Inv(limits, c)
    ensures Inv(limits, Step(limits, c, op))
  {
    if op.Push? {
      PushKeepsInv(limits, c, op.frame, op.first, op.second);
    }
  }

  lemma {:induction false} RunKeepsInv(limits: Limits, c: Recovery, ops: seq<Op>)
    requires limits.maxBytes > 0 && Inv(limits, c)
    ensures Inv(limits, Run(limits, c, ops))
    decreases |ops|
  {
    if ops != [] {
      StepKeepsInv(limits, c, ops[0]);
      RunKeepsInv(limits, Step(limits, c, ops[0]), ops[1..]);
    }
  }

  // ---- What it promises ----

  /** For any sequence of pushes, flushes, discards and failures: what was delivered followed by what is
      held equals what was pushed since the last discard point, in order, nothing lost or doubled;
      nothing is delivered before the commit; and what is held before it is counted exactly and stays
      under the cap. */
  lemma InvisibleRetry(limits: Limits, ops: seq<Op>)
    requires limits.maxBytes > 0
    ensures
      var c := Run(limits, Begin(), ops);
      && c.delivered + c.buffer.events == c.since
      && (!c.buffer.committed ==> c.delivered == [])
      && (c.buffer.committed ==> c.buffer.events == [] && c.delivered == c.since)
      && c.buffer.bytes == TotalSize(c.buffer.events) < limits.maxBytes
  {
    RunKeepsInv(limits, Begin(), ops);
  }

  lemma {:induction false} CommitLasts(limits: Limits, c: Recovery, ops: seq<Op>)
    requires c.buffer.committed
    ensures
      var d := Run(limits, c, ops);
      d.buffer.committed && c.delivered <= d.delivered && c.since <= d.since
    decreases |ops|
  {
    if ops != [] {
      CommitLasts(limits, Step(limits, c, ops[0]), ops[1..]);
    }
  }

  /** Once committed, always committed: no later operation takes anything back, and every further push
      is delivered at once. */
  lemma NoResetAfterCommit(limits: Limits, ops: seq<Op>, more: seq<Op>, frame: Frame, first: int, second: int)
    requires limits.maxBytes > 0 && Run(limits, Begin(), ops).buffer.committed
    ensures
      var c := Run(limits, Begin(), ops);
      var d := Run(limits, c, more);
      && d.buffer.committed
      && c.delivered <= d.delivered
      && d.delivered == d.since
      && Step(limits, d, Push(frame, first, second)).delivered == d.delivered + [frame]
      && (forall r :: !RetriesEarly(d.buffer, r))
  {
    var c := Run(limits, Begin(), ops);
    CommitLasts(limits, c, more);
    RunKeepsInv(limits, Begin(), ops);
    RunKeepsInv(limits, c, more);
  }

  /** When frames go out, after any operations: a push to an uncommitted buffer leaves it uncommitted, with
      the frame held last, exactly if all held frames together stay under the cap and less than the
      holdback has passed since the first of them was pushed; otherwise everything pushed is delivered. */
  lemma HeldExactlyThen(limits: Limits, ops: seq<Op>, frame: Frame, first: int, second: int)
    requires limits.maxBytes > 0 && !Run(limits, Begin(), ops).buffer.committed
    ensures
      var c := Run(limits, Begin(), ops);
      var d := Step(limits, c, Push(frame, first, second));
      && (c.buffer.events != [] ==> c.buffer.startedAt.Some?)
      && var began := if c.buffer.events == [] then first else c.buffer.startedAt.value;
         && (!d.buffer.committed <==>
             TotalSize(c.buffer.events) + frame.size < limits.maxBytes && second - began < limits.holdback)
         && (if d.buffer.committed then d.buffer.events == [] && d.delivered == d.since
             else d.buffer.events == c.buffer.events + [frame] && d.buffer.startedAt == Some(began) && d.delivered == [])
         && d.since == c.since + [frame]
  {
    RunKeepsInv(limits, Begin(), ops);
    RunKeepsInv(limits, Run(limits, Begin(), ops), [Push(frame, first, second)]);
    PushSteps(limits, Run(limits, Begin(), ops), frame, first, second);
  }

  lemma PushSteps(limits: Limits, c: Recovery, frame: Frame, first: int, second: int)
    requires limits.maxBytes > 0 && Inv(limits, c)
    ensures Inv(limits, Step(limits, c, Push(frame, first, second)))
    ensures
      var d := Step(limits, c, Push(frame, first, second));
      d.buffer.committed ==> d.delivered == d.since
  {
    PushKeepsInv(limits, c, frame, first, second);
    var d := Step(limits, c, Push(frame, first, second));
    assert d.buffer.committed ==> d.delivered + [] == d.delivered;
  }

  /** The first frame held is the one whose time counts: as long as frames stay held, no operation moves
      that time, and only a push to an empty buffer sets it. */
  lemma HoldingClock(limits: Limits, ops: seq<Op>, op: Op)
    requires limits.maxBytes > 0
    ensures
      var c, d := Run(limits, Begin(), ops), Step(limits, Run(limits, Begin(), ops), op);
      && (c.buffer.events != [] && d.buffer.events != [] ==> d.buffer.startedAt == c.buffer.startedAt)
      && (c.buffer.events == [] && d.buffer.events != [] ==> op.Push? && d.buffer.startedAt == Some(op.first))
  {
    RunKeepsInv(limits, Begin(), ops);
  }

  /** A flush commits and delivers everything held; a discard drops exactly what is held, and nothing of
      what was delivered. */
  lemma FlushAndDiscard(limits: Limits, ops: seq<Op>)
    requires limits.maxBytes > 0
    ensures
      var c := Run(limits, Begin(), ops);
      var flushed, discarded := Step(limits, c, Flush), Step(limits, c, Discard);
      && flushed.buffer.committed && flushed.buffer.events == []
      && flushed.delivered == flushed.since == c.since
      && discarded.buffer.committed == c.buffer.committed && discarded.buffer.events == []
      && discarded.delivered == discarded.since == c.delivered
  {
    RunKeepsInv(limits, Begin(), ops);
    var c := Run(limits, Begin(), ops);
    assert c.delivered + [] == c.delivered;
  }

  /** What a failure decides, after any operations: an early retry throws away only what nobody has seen
      and, once output was generated, always leaves a further attempt in reserve for recovery; recovery
      in midstream needs generated output and a way to continue; anything else is final. The reports on
      the buffer are those from before the decision, and without an early retry nothing changes. */
  lemma FailureDecisions(limits: Limits, ops: seq<Op>, r: Report)
    requires limits.maxBytes > 0
    ensures
      var c := Run(limits, Begin(), ops);
      var d, after := Decide(c.buffer, r), Step(limits, c, Fail(r));
      && d.hasBuffered == (c.buffer.events != [])
      && (d.action.EarlyRetry? ==>
            && c.delivered == [] && after.delivered == [] && after.since == [] && after.buffer == EmptyBuffer()
            && r.attemptsRemaining >= 1
            && (r.generatedOutput ==> r.attemptsRemaining >= 2))
      && (!d.action.EarlyRetry? ==> after == c && d.committed == c.buffer.committed)
      && (d.action.MidstreamRecovery? ==> r.retryable && r.generatedOutput && (r.attemptsRemaining > 0 || r.toolSalvageable))
      && (d.action.FinalError? && r.retryable && r.attemptsRemaining > 0 ==>
            !r.generatedOutput && (!r.streamOpened || c.buffer.committed || r.toolSalvageable))
      && (d.action.EarlyRetry? <==>
            && r.retryable && r.streamOpened && !c.buffer.committed && !r.toolSalvageable
            && r.attemptsRemaining >= (if r.generatedOutput then 2 else 1))
      && (!d.action.EarlyRetry? ==>
            (d.action.MidstreamRecovery? <==>
             r.retryable && r.generatedOutput && (r.attemptsRemaining > 0 || r.toolSalvageable)))
      && d.retryable == r.retryable
  {
    RunKeepsInv(limits, Begin(), ops);
  }

  /** After a decision that is not an early retry, `flush_uncommitted` delivers everything still held. */
  lemma FlushAfterDecision(limits: Limits, ops: seq<Op>, r: Report)
    requires limits.maxBytes > 0 && !Decide(Run(limits, Begin(), ops).buffer, r).action.EarlyRetry?
    ensures
      var c := Run(limits, Begin(), ops);
      var after := Step(limits, Step(limits, c, Fail(r)), FlushUncommitted(Decide(c.buffer, r)));
      after.delivered == c.since && after.since == c.since && after.buffer.events == []
  {
    RunKeepsInv(limits, Begin(), ops);
    var c := Run(limits, Begin(), ops);
    assert c.delivered + [] == c.delivered;
  }

  // ---- The objects ----

  class RecoveryHoldbackBuffer {
    const limits: Limits
    var events: seq<Frame>
    var bytes: nat
    var startedAt: Option<int>
    var committed: bool

    constructor (limits: Limits)
      ensures View() == EmptyBuffer() && this.limits == limits
    {
      this.limits := limits;
      events, bytes, startedAt, committed := [], 0, None, false;
    }

    function View(): Buffer
      reads this
    {
      Buffer(events, bytes, startedAt, committed)
    }

    method Push(event: Frame, first: int, second: int) returns (out: seq<Frame>)
      modifies this
      ensures View() == PushBuffer(limits, old(View()), event, first, second)
      ensures out == Pushed(limits, old(View()), event, first, second)
    {
      if committed {
        return [event];
      }
      if startedAt.None? {
        startedAt := Some(first);
      }
      events := events + [event];
      bytes := bytes + event.size;
      if bytes >= limits.maxBytes || second - startedAt.value >= limits.holdback {
        out := Flush();
      } else {
        out := [];
      }
    }

    method Flush() returns (out: seq<Frame>)
      modifies this
      ensures View() == FlushBuffer(old(View()))
      ensures out == Flushed(old(View()))
    {
      if committed {
        return [];
      }
      committed := true;
      out := events;
      events, bytes, startedAt := [], 0, None;
    }

    method Discard()
      modifies this
      ensures View() == Buffer([], 0, None, old(committed))
    {
      events, bytes, startedAt := [], 0, None;
    }
  }

  class RecoveryController {
    const limits: Limits
    var holdback: RecoveryHoldbackBuffer
    ghost var delivered: seq<Frame>
    ghost var since: seq<Frame>

    constructor (limits: Limits)
      ensures Valid() && View() == Begin() && this.limits == limits && fresh(holdback)
    {
      this.limits := limits;
      holdback := new RecoveryHoldbackBuffer(limits);
      delivered, since := [], [];
    }

    ghost predicate Valid()
      reads this, holdback
    {
      holdback.limits == limits
    }

    ghost function View(): Recovery
      reads this, holdback
    {
      Recovery(holdback.View(), delivered, since)
    }

    method Push(event: Frame, first: int, second: int) returns (out: seq<Frame>)
      requires Valid()
      modifies this`delivered, this`since, holdback
      ensures Valid() && View() == Step(limits, old(View()), Op.Push(event, first, second))
      ensures delivered == old(delivered) + out
    {
      out := holdback.Push(event, first, second);
      delivered, since := delivered + out, since + [event];
    }

    method Flush() returns (out: seq<Frame>)
      requires Valid()
      modifies this`delivered, holdback
      ensures Valid() && View() == Step(limits, old(View()), Op.Flush)
      ensures delivered == old(delivered) + out
    {
      out := holdback.Flush();
      delivered := delivered + out;
    }

    method Discard()
      requires Valid()
      modifies this`since, holdback
      ensures Valid() && View() == Step(limits, old(View()), Op.Discard)
    {
      holdback.Discard();
      since := if holdback.committed then since else [];
    }

    method FlushUncommitted(decision: Decision) returns (out: seq<Frame>)
      requires Valid()
      modifies this`delivered, holdback
      ensures Valid() && View() == Step(limits, old(View()), Op.FlushUncommitted(decision))
      ensures delivered == old(delivered) + out
    {
      if !decision.committed && decision.hasBuffered {
        out := Flush();
      } else {
        out := [];
      }
    }

    method AdvanceFailure(r: Report) returns (decision: Decision)
      requires Valid()
      modifies this, holdback
      ensures Valid() && View() == Step(limits, old(View()), Fail(r))
      ensures decision == Decide(old(holdback.View()), r)
      ensures holdback == old(holdback) || fresh(holdback)
    {
      var committed, hasBuffered := holdback.committed, holdback.events != [];
      var retryAvailable := r.attemptsRemaining > 0;
      var reserveLast := r.generatedOutput && r.attemptsRemaining == 1;
      if r.retryable && retryAvailable && r.streamOpened && !committed && !r.toolSalvageable && !reserveLast {
        holdback.Discard();
        holdback := new RecoveryHoldbackBuffer(limits);
        since := [];
        return Decision(EarlyRetry, true, false, hasBuffered);
      }
      if r.retryable && r.generatedOutput && (retryAvailable || r.toolSalvageable) {
        return Decision(MidstreamRecovery, true, committed, hasBuffered);
      }
      decision := Decision(FinalError, r.retryable, committed, hasBuffered);
    }
  }
}
