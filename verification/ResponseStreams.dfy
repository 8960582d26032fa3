/** The client-visible stream of api/response_streams.py: the prefetched response that replays one chunk
    and then follows its body, for the Messages wire (failures become a terminal frame) and the
    Responses wire (failures are raised). The search for a canonical failure is that of
    core/failures.py. */
module ResponseStreams {
  import opened Options

  // ---- Exceptions ----

  /** An exception: a canonical execution failure, any other one, or a group of exceptions. */
  datatype Exc = Failure(kind: nat) | Other(id: nat) | Group(members: seq<Exc>)

  /** The first canonical failure, reading a group and the groups in it from left to right. */
  function FirstFailure(e: Exc): Option<nat> {
    match e
    case Failure(kind) => Some(kind)
    case Other(_) => None
    case Group(members) => FirstAmong(members)
  }

  function FirstAmong(es: seq<Exc>): Option<nat> {
    if es == [] then None
    else if FirstFailure(es[0]).Some? then FirstFailure(es[0])
    else FirstAmong(es[1..])
  }

  /** The single exceptions in an exception, from left to right, however deeply groups are nested. */
  function Leaves(e: Exc): seq<Exc> {
    if e.Group? then LeavesOf(e.members) else [e]
  }

  function LeavesOf(es: seq<Exc>): seq<Exc> {
    if es == [] then [] else Leaves(es[0]) + LeavesOf(es[1..])
  }

  /** The first canonical failure in a list of single exceptions. */
  ghost predicate IsFirstFailure(leaves: seq<Exc>, failure: Option<nat>) {
    match failure
    case None => forall i :: 0 <= i < |leaves| ==> !leaves[i].Failure?
    case Some(kind) =>
      exists i :: 0 <= i < |leaves| && leaves[i] == Failure(kind) && forall j :: 0 <= j < i ==> !leaves[j].Failure?
  }

  lemma FirstOfBoth(a: seq<Exc>, b: seq<Exc>, x: Option<nat>, y: Option<nat>)
    requires IsFirstFailure(a, x) && IsFirstFailure(b, y)
    ensures IsFirstFailure(a + b, if x.Some? then x else y)
  {
    if x.Some? {
      var i :| 0 <= i < |a| && a[i] == Failure(x.value) && forall j :: 0 <= j < i ==> !a[j].Failure?;
      assert (a + b)[i] == Failure(x.value);
    } else if y.Some? {
      var i :| 0 <= i < |b| && b[i] == Failure(y.value) && forall j :: 0 <= j < i ==> !b[j].Failure?;
      assert (a + b)[|a| + i] == Failure(y.value);
    }
  }

  /** The search finds the first canonical failure among all the single exceptions in it. */
  lemma {:induction false} FindsTheFirst(e: Exc)
    ensures IsFirstFailure(Leaves(e), FirstFailure(e))
    decreases e
  {
    if e.Group? {
      FindsTheFirstOf(e.members);
    } else {
      assert Leaves(e)[0] == e;
    }
  }

  lemma {:induction false} FindsTheFirstOf(es: seq<Exc>)
    ensures IsFirstFailure(LeavesOf(es), FirstAmong(es))
    decreases es
  {
    if es != [] {
      FindsTheFirst(es[0]);
      FindsTheFirstOf(es[1..]);
      FirstOfBoth(Leaves(es[0]), LeavesOf(es[1..]), FirstFailure(es[0]), FirstAmong(es[1..]));
    }
  }

  function Size(e: Exc): nat {
    if e.Group? then 1 + Sizes(e.members) else 1
  }

  function Sizes(es: seq<Exc>): nat {
    if es == [] then 0 else Size(es[0]) + Sizes(es[1..])
  }

  /** `find_execution_failure` with its work list; the next exception to look at is the list's last, so
      the front of `todo` here is its end. */
  method FindExecutionFailure(e: Exc) returns (failure: Option<nat>)
    ensures failure == FirstFailure(e)
  {
    var todo := [e];
    assert FirstAmong([e]) == FirstFailure(e) by {
      assert [e][1..] == [];
    }
    while todo != []
      invariant FirstAmong(todo) == FirstFailure(e)
      decreases Sizes(todo)
    {
      ghost var before := todo;
      var current := todo[0];
      todo := todo[1..];
      assert Sizes(before) == Size(current) + Sizes(todo);
      if current.Failure? {
        return Some(current.kind);
      }
      if current.Group? {
        JoinedLists(current.members, todo);
        todo := current.members + todo;
      }
    }
    failure := None;
  }

  lemma {:induction false} JoinedLists(a: seq<Exc>, b: seq<Exc>)
    ensures FirstAmong(a + b) == if FirstAmong(a).Some? then FirstAmong(a) else FirstAmong(b)
    ensures Sizes(a + b) == Sizes(a) + Sizes(b)
  {
    if a == [] {
      assert a + b == b;
    } else {
      JoinedLists(a[1..], b);
      assert (a + b)[1..] == a[1..] + b;
    }
  }

  // ---- The prefetched stream ----

  /** What one pull from the body gives. `Interrupt` is a cancellation or generator exit. */
  datatype Pull = Chunk(text: string) | End | Fail(error: Exc) | Interrupt

  datatype Wire = Messages | Responses

  /** A chunk of the response: one of the body's, or the frame that reports a failure. */
  datatype Item = Body(text: string) | Terminal(failure: Option<nat>, error: Exc)

  datatype Answer = Give(item: Item) | Stop | Throw(error: Exc) | Interrupted

  datatype Stream = Stream(first: Option<string>, rest: seq<Pull>, done: bool, closed: bool)

  datatype Op = Next | Close

  /** The exception a failed pull is reported as: a group gives way to the canonical failure in it. */
  function Shown(e: Exc): Exc {
    if e.Group? && FirstFailure(e).Some? then Failure(FirstFailure(e).value) else e
  }

  function TerminalFrame(e: Exc): Item {
    Terminal(FirstFailure(e), e)
  }

  function PullOf(rest: seq<Pull>): Pull {
    if rest == [] then End else rest[0]
  }

  function Left(rest: seq<Pull>): seq<Pull> {
    if rest == [] then [] else rest[1..]
  }

  function AnswerTo(wire: Wire, s: Stream): Answer {
    if s.closed || s.done then Stop
    else if s.first.Some? then Give(Body(s.first.value))
    else
      match PullOf(s.rest)
      case Chunk(text) => Give(Body(text))
      case End => Stop
      case Fail(e) => if wire.Messages? then Give(TerminalFrame(Shown(e))) else Throw(Shown(e))
      case Interrupt => Interrupted
  }

  function AfterNext(wire: Wire, s: Stream): Stream {
    if s.closed || s.done then s
    else if s.first.Some? then s.(first := None)
    else
      var pull := PullOf(s.rest);
      s.(rest := Left(s.rest), done := pull.End? || (pull.Fail? && wire.Messages?))
  }

  function AfterClose(s: Stream): Stream {
    s.(closed := true, done := true)
  }

  /** The answers to a sequence of reads and closes. */
  function Serve(wire: Wire, s: Stream, ops: seq<Op>): seq<Answer>
    decreases |ops|
  {
    if ops == [] then []
    else if ops[0].Close? then Serve(wire, AfterClose(s), ops[1..])
    else [AnswerTo(wire, s)] + Serve(wire, AfterNext(wire, s), ops[1..])
  }

  function Given(answers: seq<Answer>): seq<Item> {
    if answers == [] then []
    else if answers[0].Give? then [answers[0].item] + Given(answers[1..])
    else Given(answers[1..])
  }

  // ---- What the client should see ----

  function Chunks(pulls: seq<Pull>): seq<Item> {
    if pulls == [] then []
    else if pulls[0].Chunk? then [Body(pulls[0].text)] + Chunks(pulls[1..])
    else Chunks(pulls[1..])
  }

  /** How many pulls come before the body ends or fails. */
  function Lasting(pulls: seq<Pull>): (n: nat)
    ensures n <= |pulls|
    ensures forall i :: 0 <= i < n ==> !pulls[i].End? && !pulls[i].Fail?
    ensures n < |pulls| ==> pulls[n].End? || pulls[n].Fail?
  {
    if pulls == [] || pulls[0].End? || pulls[0].Fail? then 0 else 1 + Lasting(pulls[1..])
  }

  predicate BodyFails(pulls: seq<Pull>) {
    Lasting(pulls) < |pulls| && pulls[Lasting(pulls)].Fail?
  }

  /** The body's chunks up to its end or failure, then one terminal frame exactly if it failed. */
  function MessagesView(pulls: seq<Pull>): seq<Item> {
    Chunks(pulls[..Lasting(pulls)])
    + if BodyFails(pulls) then [TerminalFrame(Shown(pulls[Lasting(pulls)].error))] else []
  }

  function Remaining(s: Stream): seq<Item> {
    if s.closed || s.done then []
    else (if s.first.Some? then [Body(s.first.value)] else []) + MessagesView(s.rest)
  }

  lemma ViewUnfolds(pulls: seq<Pull>)
    requires pulls != []
    ensures
      MessagesView(pulls) ==
      match pulls[0] {
        case Chunk(text) => [Body(text)] + MessagesView(pulls[1..])
        case End => []
        case Fail(e) => [TerminalFrame(Shown(e))]
        case Interrupt => MessagesView(pulls[1..])
      }
  {
    if pulls[0].End? || pulls[0].Fail? {
      assert pulls[..Lasting(pulls)] == [];
    } else {
      assert pulls[..Lasting(pulls)][1..] == pulls[1..][..Lasting(pulls[1..])];
    }
  }

  lemma NextReads(s: Stream)
    ensures
      Remaining(s) ==
      Given([AnswerTo(Messages, s)]) + Remaining(AfterNext(Messages, s))
  {
    GivenOne(AnswerTo(Messages, s));
    if s.closed || s.done || s.first.Some? {
      ReadsFirst(s);
    } else if s.rest != [] {
      ViewUnfolds(s.rest);
    }
  }

  lemma GivenOne(a: Answer)
    ensures Given([a]) == if a.Give? then [a.item] else []
  {
    assert [a][1..] == [];
  }

  lemma ReadsFirst(s: Stream)
    requires s.closed || s.done || s.first.Some?
    ensures Remaining(s) == Given([AnswerTo(Messages, s)]) + Remaining(AfterNext(Messages, s))
  {
    GivenOne(AnswerTo(Messages, s));
  }

  lemma GivenCons(a: Answer, more: seq<Answer>)
    ensures Given([a] + more) == Given([a]) + Given(more)
  {
    assert ([a] + more)[1..] == more;
    assert [a][1..] == [];
  }

  /** A failure is reported as the first canonical failure in it, if it is a group with one, and as itself
      otherwise; the terminal frame names that failure. */
  lemma FailuresAreShown(e: Exc)
    ensures
      var shown, frame := Shown(e), TerminalFrame(Shown(e));
      && frame == Terminal(FirstFailure(e), shown)
      && IsFirstFailure(Leaves(e), frame.failure)
      && shown == if e.Group? && frame.failure.Some? then Failure(frame.failure.value) else e
  {
    FindsTheFirst(e);
  }

  /** What one read answers: the stream is over exactly if it is closed or done or its body ends there; the
      first chunk comes first; and after it each read answers what the body does next. */
  lemma ReadsAnswerTheBody(wire: Wire, s: Stream)
    ensures
      var answer := AnswerTo(wire, s);
      var open := !s.closed && !s.done;
      var next := if s.first.Some? || s.rest == [] then None else Some(s.rest[0]);
      && (answer.Stop? <==> !open || (s.first.None? && (s.rest == [] || s.rest[0].End?)))
      && (open && s.first.Some? ==> answer == Give(Body(s.first.value)) && AfterNext(wire, s) == s.(first := None))
      && (open && next.Some? ==>
            && AfterNext(wire, s).rest == s.rest[1..]
            && match next.value
               case Chunk(text) => answer == Give(Body(text))
               case End => answer.Stop?
               case Fail(e) => answer == if wire.Messages? then Give(Terminal(FirstFailure(e), Shown(e))) else Throw(Shown(e))
               case Interrupt => answer.Interrupted?)
  {
    if s.first.None? && s.rest != [] && s.rest[0].Fail? {
      FailuresAreShown(s.rest[0].error);
    }
  }

  /** Whatever reads and closes happen, what the client gets on the Messages wire is a beginning of the
      body's chunks in order, then the terminal frame if the body failed. */
  lemma {:induction false} MessagesNeverStrays(s: Stream, ops: seq<Op>)
    ensures Given(Serve(Messages, s, ops)) <= Remaining(s)
    decreases |ops|
  {
    if ops != [] {
      if ops[0].Next? {
        MessagesNeverStrays(AfterNext(Messages, s), ops[1..]);
        NextReads(s);
        GivenCons(AnswerTo(Messages, s), Serve(Messages, AfterNext(Messages, s), ops[1..]));
      } else {
        MessagesNeverStrays(AfterClose(s), ops[1..]);
      }
    }
  }

  function Reads(n: nat): seq<Op> {
    seq(n, i => Next)
  }

  /** A client that reads to the end gets all of it. */
  lemma {:induction false} MessagesIsComplete(s: Stream, n: nat)
    requires s.done || s.closed || n >= |s.rest| + if s.first.Some? then 1 else 0
    ensures Given(Serve(Messages, s, Reads(n))) == Remaining(s)
    decreases n
  {
    if n == 0 {
      assert Remaining(s) == [];
    } else {
      assert Reads(n)[1..] == Reads(n - 1);
      NextReads(s);
      MessagesIsComplete(AfterNext(Messages, s), n - 1);
      GivenCons(AnswerTo(Messages, s), Serve(Messages, AfterNext(Messages, s), Reads(n - 1)));
    }
  }

  predicate AllStop(answers: seq<Answer>) {
    forall i :: 0 <= i < |answers| ==> answers[i].Stop?
  }

  lemma {:induction false} EndedStaysEnded(wire: Wire, s: Stream, ops: seq<Op>)
    requires s.done || s.closed
    ensures AllStop(Serve(wire, s, ops))
    decreases |ops|
  {
    if ops != [] {
      EndedStaysEnded(wire, if ops[0].Next? then AfterNext(wire, s) else AfterClose(s), ops[1..]);
    }
  }

  /** After the terminal frame, the end of the body or a close, every read is told that the stream is
      over. */
  lemma StaysEnded(wire: Wire, s: Stream, ops: seq<Op>)
    ensures
      var answer := AnswerTo(wire, s);
      answer.Stop? || (answer.Give? && answer.item.Terminal?) ==> AllStop(Serve(wire, AfterNext(wire, s), ops))
    ensures AllStop(Serve(wire, AfterClose(s), ops))
  {
    var answer := AnswerTo(wire, s);
    if answer.Stop? || (answer.Give? && answer.item.Terminal?) {
      EndedStaysEnded(wire, AfterNext(wire, s), ops);
    }
    EndedStaysEnded(wire, AfterClose(s), ops);
  }

  // ---- The Responses wire ----

  /** What a Responses client gets: the items it is given and the errors raised to it. */
  function Heard(answers: seq<Answer>): seq<Answer> {
    if answers == [] then []
    else if answers[0].Give? || answers[0].Throw? then [answers[0]] + Heard(answers[1..])
    else Heard(answers[1..])
  }

  /** Every chunk and every failure of the body up to its end, as they come. */
  function PassedThrough(pulls: seq<Pull>): seq<Answer> {
    if pulls == [] then []
    else
      match pulls[0]
      case Chunk(text) => [Give(Body(text))] + PassedThrough(pulls[1..])
      case End => []
      case Fail(e) => [Throw(Shown(e))] + PassedThrough(pulls[1..])
      case Interrupt => PassedThrough(pulls[1..])
  }

  function ResponsesRemaining(s: Stream): seq<Answer> {
    if s.closed || s.done then []
    else (if s.first.Some? then [Give(Body(s.first.value))] else []) + PassedThrough(s.rest)
  }

  function GiveAll(items: seq<Item>): seq<Answer> {
    seq(|items|, i requires 0 <= i < |items| => Give(items[i]))
  }

  /** A body that is a generator yields nothing after it failed. */
  predicate EndsWithItsFailure(pulls: seq<Pull>) {
    BodyFails(pulls) ==> Lasting(pulls) + 1 == |pulls| || pulls[Lasting(pulls) + 1].End?
  }

  lemma HeardCons(a: Answer, more: seq<Answer>)
    ensures Heard([a] + more) == Heard([a]) + Heard(more)
  {
    assert ([a] + more)[1..] == more;
    assert [a][1..] == [];
  }

  lemma HeardOne(a: Answer)
    ensures Heard([a]) == if a.Give? || a.Throw? then [a] else []
  {
    assert [a][1..] == [];
  }

  lemma ResponsesReads(s: Stream)
    ensures ResponsesRemaining(s) == Heard([AnswerTo(Responses, s)]) + ResponsesRemaining(AfterNext(Responses, s))
  {
    HeardOne(AnswerTo(Responses, s));
    if s.closed || s.done {
      assert ResponsesRemaining(s) == [];
    } else if s.first.Some? {
      assert AfterNext(Responses, s) == s.(first := None);
    } else if s.rest == [] {
      assert PassedThrough(s.rest) == [];
    } else {
      assert AfterNext(Responses, s).rest == s.rest[1..];
    }
  }

  /** On the Responses wire no frame is ever added. Whatever reads and closes happen, the client gets a
      beginning of: the first chunk if it is still unread, then the body's chunks in order, each failure
      raised to the read that meets it. */
  lemma {:induction false} ResponsesNeverStrays(s: Stream, ops: seq<Op>)
    ensures Heard(Serve(Responses, s, ops)) <= ResponsesRemaining(s)
    decreases |ops|
  {
    if ops != [] {
      if ops[0].Next? {
        ResponsesNeverStrays(AfterNext(Responses, s), ops[1..]);
        ResponsesReads(s);
        HeardCons(AnswerTo(Responses, s), Serve(Responses, AfterNext(Responses, s), ops[1..]));
      } else {
        ResponsesNeverStrays(AfterClose(s), ops[1..]);
      }
    }
  }

  /** A client that reads on to the end gets all of it. */
  lemma {:induction false} ResponsesIsComplete(s: Stream, n: nat)
    requires s.done || s.closed || n >= |s.rest| + if s.first.Some? then 1 else 0
    ensures Heard(Serve(Responses, s, Reads(n))) == ResponsesRemaining(s)
    decreases n
  {
    if n == 0 {
      assert ResponsesRemaining(s) == [];
    } else {
      assert Reads(n)[1..] == Reads(n - 1);
      ResponsesReads(s);
      ResponsesIsComplete(AfterNext(Responses, s), n - 1);
      HeardCons(AnswerTo(Responses, s), Serve(Responses, AfterNext(Responses, s), Reads(n - 1)));
    }
  }

  lemma GiveAllCons(item: Item, items: seq<Item>)
    ensures GiveAll([item] + items) == [Give(item)] + GiveAll(items)
  {
  }

  /** Of a generator body this is: its chunks in order, then its failure once, and nothing else. */
  lemma {:induction false} ResponsesRaises(pulls: seq<Pull>)
    requires EndsWithItsFailure(pulls)
    ensures
      PassedThrough(pulls) ==
      GiveAll(Chunks(pulls[..Lasting(pulls)]))
      + if BodyFails(pulls) then [Throw(Shown(pulls[Lasting(pulls)].error))] else []
    decreases |pulls|
  {
    if pulls == [] {
    } else if pulls[0].End? || pulls[0].Fail? {
      assert pulls[..0] == [];
      assert pulls[0].Fail? ==> PassedThrough(pulls[1..]) == [];
    } else {
      ResponsesRaises(pulls[1..]);
      assert pulls[..Lasting(pulls)][1..] == pulls[1..][..Lasting(pulls[1..])];
      if pulls[0].Chunk? {
        GiveAllCons(Body(pulls[0].text), Chunks(pulls[1..][..Lasting(pulls[1..])]));
      }
    }
  }

  // ---- The first chunk ----

  datatype PreStart = EmptyStream | BodyFailed(error: Exc)

  datatype Opened = Streaming(stream: Stream) | ErrorResponse(reason: PreStart) | Propagated

  /** `_first_chunk_streaming_response`; `interrupted` says whether the caller was cancelled while the
      body was being closed, or that close raised what is no ordinary exception. */
  function Open(pulls: seq<Pull>, interrupted: bool): Opened {
    match PullOf(pulls)
    case Chunk(text) => Streaming(Stream(Some(text), Left(pulls), false, false))
    case End => if interrupted then Propagated else ErrorResponse(EmptyStream)
    case Fail(e) => if interrupted then Propagated else ErrorResponse(BodyFailed(e))
    case Interrupt => Propagated
  }

  /** From body to client: a stream is only opened on a first chunk, and reading it to the end gives
      exactly the wire's view of the whole body; otherwise nothing was sent yet and the error becomes a
      response of its own. */
  lemma OpenedStreamShowsTheBody(pulls: seq<Pull>, interrupted: bool)
    ensures
      var opening := Open(pulls, interrupted);
      && (opening.Streaming? <==> pulls != [] && pulls[0].Chunk?)
      && (opening.Streaming? ==>
            && Given(Serve(Messages, opening.stream, Reads(|pulls|))) == MessagesView(pulls)
            && Heard(Serve(Responses, opening.stream, Reads(|pulls|))) == PassedThrough(pulls))
      && (opening.ErrorResponse? <==> !interrupted && (pulls == [] || pulls[0].End? || pulls[0].Fail?))
      && (opening.ErrorResponse? ==>
            opening.reason == if pulls != [] && pulls[0].Fail? then BodyFailed(pulls[0].error) else EmptyStream)
      && (opening.ErrorResponse? ==> MessagesView(pulls) == if BodyFails(pulls) then [TerminalFrame(Shown(pulls[0].error))] else [])
  {
    var opening := Open(pulls, interrupted);
    if opening.Streaming? {
      ViewUnfolds(pulls);
      MessagesIsComplete(opening.stream, |pulls|);
      ResponsesIsComplete(opening.stream, |pulls|);
    } else if opening.ErrorResponse? && pulls != [] {
      ViewUnfolds(pulls);
    }
  }

  // ---- The object ----

  class PrefetchedStream {
    const wire: Wire
    var firstChunk: Option<string>
    var body: seq<Pull>
    var done: bool
    var closed: bool
    var bodyCloses: nat

    constructor (wire: Wire, firstChunk: string, body: seq<Pull>)
      ensures this.wire == wire && View() == Stream(Some(firstChunk), body, false, false) && bodyCloses == 0
    {
      this.wire, this.firstChunk, this.body := wire, Some(firstChunk), body;
      done, closed, bodyCloses := false, false, 0;
    }

    function View(): Stream
      reads this
    {
      Stream(firstChunk, body, done, closed)
    }

    method PullBody() returns (pull: Pull)
      modifies this`body
      ensures pull == PullOf(old(body)) && body == Left(old(body))
    {
      if body == [] {
        return End;
      }
      pull := body[0];
      body := body[1..];
    }

    method TerminalChunk(e: Exc) returns (answer: Answer)
      modifies this`done
      ensures answer == if wire.Messages? then Give(TerminalFrame(e)) else Throw(e)
      ensures done == (old(done) || wire.Messages?)
    {
      if wire.Responses? {
        return Throw(e);
      }
      done := true;
      var failure := FindExecutionFailure(e);
      answer := Give(Terminal(failure, e));
    }

    method Anext() returns (answer: Answer)
      modifies this`firstChunk, this`body, this`done
      ensures answer == AnswerTo(wire, old(View())) && View() == AfterNext(wire, old(View()))
    {
      if closed || done {
        return Stop;
      }
      if firstChunk.Some? {
        answer := Give(Body(firstChunk.value));
        firstChunk := None;
        return;
      }
      var pull := PullBody();
      match pull {
        case Chunk(text) => answer := Give(Body(text));
        case End =>
          done := true;
          answer := Stop;
        case Interrupt => answer := Interrupted;
        case Fail(e) =>
          var shown := e;
          if e.Group? {
            var failure := FindExecutionFailure(e);
            shown := if failure.Some? then Failure(failure.value) else e;
          }
          answer := TerminalChunk(shown);
      }
    }

    /** The body is closed by the first close only. */
    method Aclose()
      modifies this`done, this`closed, this`bodyCloses
      ensures View() == AfterClose(old(View())) || (old(closed) && View() == old(View()))
      ensures closed && bodyCloses == old(bodyCloses) + if old(closed) then 0 else 1
    {
      if closed {
        return;
      }
      closed, done := true, true;
      bodyCloses := bodyCloses + 1;
    }
  }
}
