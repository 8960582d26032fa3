/** What the fallback loop promises: one winning candidate, one stream at a time, one shared deadline. */
module ExecutionProofs {
  import opened Options
  import opened Execution

  // ---- A monitor that reads what can be seen from outside ----

  type PullId = (nat, nat)

  /** What a reader of the acts knows: the chunks delivered, the streams open now, all streams opened so
      far, the pulls the deadline cancelled, when progress was last made, whether the deadline was missed
      since, whether the timeout failure was raised, and whether every act so far was in order. */
  datatype Seen = Seen(
    chunks: seq<string>, open: set<nat>, openings: seq<nat>, overdue: set<PullId>, progress: int,
    late: bool, timedOut: bool, inOrder: bool)

  /** A stream is opened only when none is open and after lower-numbered ones; only the open stream is
      pulled, delivers, misses the deadline and is closed. A pull starts before the deadline since the
      last progress, and none does any more once the deadline was missed, until progress is made. The
      deadline cancels a pull exactly when it is reached, and the timeout failure is raised only after
      it; then nothing but the close follows. */
  function Read(seen: Seen, act: Act, timeout: nat): Seen {
    match act
    case Opened(i) =>
      seen.(open := seen.open + {i}, openings := seen.openings + [i],
            inOrder := seen.inOrder && !seen.timedOut && seen.open == {} && forall j | j in seen.openings :: j < i)
    case Closed(i, _) => seen.(open := seen.open - {i}, inOrder := seen.inOrder && seen.open == {i})
    case Pulled(i, at) =>
      seen.(inOrder := seen.inOrder && !seen.timedOut && !seen.late && seen.open == {i} && at < seen.progress + timeout)
    case Overdue(i, k, at) =>
      seen.(overdue := seen.overdue + {(i, k)}, late := true,
            inOrder := seen.inOrder && !seen.timedOut && !seen.late && seen.open == {i} && at == seen.progress + timeout)
    case TimedOut(i, at) =>
      seen.(late := true, timedOut := true,
            inOrder := seen.inOrder && !seen.timedOut && seen.open == {i} && at >= seen.progress + timeout)
    case Emitted(text) =>
      seen.(chunks := seen.chunks + [text],
            inOrder := seen.inOrder && !seen.timedOut && seen.open != {} && text != "")
    case Resumed(at) =>
      seen.(progress := at, late := false, inOrder := seen.inOrder && !seen.timedOut && seen.chunks != [])
  }

  function ReadAll(acts: seq<Act>, start: int, timeout: nat): Seen {
    if acts == [] then Seen([], {}, [], {}, start, false, false, true)
    else Read(ReadAll(acts[..|acts| - 1], start, timeout), acts[|acts| - 1], timeout)
  }

  lemma ReadOneMore(acts: seq<Act>, act: Act, start: int, timeout: nat)
    ensures ReadAll(acts + [act], start, timeout) == Read(ReadAll(acts, start, timeout), act, timeout)
  {
    assert (acts + [act])[..|acts|] == acts;
  }

  // ---- One stream ----

  /** What the `k`-th pull of stream `index` answered, given which pulls the deadline cancelled. */
  function AnswerOf(pulls: seq<Pull>, index: nat, overdue: set<PullId>, k: nat): Answer
    requires k < |pulls|
  {
    if (index, k) in overdue && pulls[k].cancelled.AnswersLate? then pulls[k].cancelled.late else pulls[k].answer
  }

  predicate Delivery(answer: Answer) {
    answer.Chunk? && answer.text != ""
  }

  /** The non-empty chunks among the answers from `k` up to `j`. */
  function NonEmpty(pulls: seq<Pull>, index: nat, overdue: set<PullId>, k: nat, j: nat): seq<string>
    requires k <= j <= |pulls|
    decreases j - k
  {
    if k == j then []
    else
      var answer := AnswerOf(pulls, index, overdue, k);
      (if Delivery(answer) then [answer.text] else []) + NonEmpty(pulls, index, overdue, k + 1, j)
  }

  /** Between `k` and `j` all pulls answered chunks, and the consumer resumed after every delivered one,
      except after the last if it `closed` there. */
  predicate Chunks(pulls: seq<Pull>, index: nat, overdue: set<PullId>, k: nat, j: nat, closed: bool) {
    && k <= j <= |pulls| && (closed ==> k < j)
    && forall i | k <= i < j ::
         var answer := AnswerOf(pulls, index, overdue, i);
         answer.Chunk? && (answer.text != "" ==> (answer.consumer.Closes? <==> closed && i == j - 1))
  }

  /** The stream ended this way after `j` chunks: by its own end or failure, by its consumer, or with the
      timeout failure because the deadline was missed. */
  predicate EndsAt(pulls: seq<Pull>, index: nat, overdue: set<PullId>, j: nat, end: End, timedOut: bool) {
    && j <= |pulls|
    && if timedOut then
         && end == Raised(Execution(PROGRESS_TIMEOUT))
         && ((index, j) in overdue ==> j < |pulls| && pulls[j].cancelled.LetsThrough?)
       else
         && ((index, j) in overdue ==> j < |pulls| && pulls[j].cancelled.AnswersLate?)
         && match end
            case Finished => j == |pulls| || AnswerOf(pulls, index, overdue, j).Stops?
            case Raised(error) => j < |pulls| && AnswerOf(pulls, index, overdue, j) == Raises(error)
            case ConsumerClosed => j > 0 && Delivery(AnswerOf(pulls, index, overdue, j - 1))
  }

  /** While candidate `index` is open: the acts are in order, the deadline follows the progress, and it
      was missed only if the clock says so. */
  ghost predicate Streaming(p: Played, index: nat, timeout: nat, start: int) {
    var seen := ReadAll(p.acts, start, timeout);
    && seen.inOrder && seen.open == {index} && p.deadline == seen.progress + timeout
    && (seen.late ==> p.now >= p.deadline)
    && (p.committed ==> seen.chunks != [])
  }

  /** The same before the `k`-th pull, with no timeout yet. */
  ghost predicate Ticking(p: Played, k: nat, index: nat, timeout: nat, start: int) {
    var seen := ReadAll(p.acts, start, timeout);
    && Streaming(p, index, timeout, start) && !seen.timedOut
    && forall m :: (index, m) in seen.overdue ==> m < k
  }

  /** From `before` to `after` only pulls of stream `index` from `k` on became overdue. */
  ghost predicate Grows(before: set<PullId>, after: set<PullId>, index: nat, k: nat) {
    && before <= after
    && forall id | id in after && id !in before :: id.0 == index && id.1 >= k
  }

  /** A pull that became overdue is the one the stream ended at, or delivered late, or answered an empty
      chunk and was followed by the timeout. */
  ghost predicate OverdueEnds(pulls: seq<Pull>, k: nat, j: nat, index: nat, overdue: set<PullId>, timedOut: bool) {
    forall m :: m >= k && (index, m) in overdue ==>
      m < |pulls| && m <= j && (m < j ==> Delivery(AnswerOf(pulls, index, overdue, m)) || timedOut)
  }

  /** What a reader sees of the pulls from `k` up to `j`. */
  ghost predicate Part(
    pulls: seq<Pull>, k: nat, j: nat, index: nat, before: Seen, after: Seen, was: bool, has: bool, end: End)
  {
    && Chunks(pulls, index, after.overdue, k, j, end.ConsumerClosed?)
    && EndsAt(pulls, index, after.overdue, j, end, after.timedOut)
    && OverdueEnds(pulls, k, j, index, after.overdue, after.timedOut)
    && Grows(before.overdue, after.overdue, index, k)
    && after.chunks == before.chunks + NonEmpty(pulls, index, after.overdue, k, j)
    && (has <==> was || NonEmpty(pulls, index, after.overdue, k, j) != [])
    && after.openings == before.openings
  }

  /** From `p` to `q` the pulls from `k` up to `j` were played. */
  ghost predicate Delivered(pulls: seq<Pull>, k: nat, j: nat, index: nat, timeout: nat, start: int, p: Played, q: Played) {
    && Part(pulls, k, j, index, ReadAll(p.acts, start, timeout), ReadAll(q.acts, start, timeout), p.committed, q.committed, q.end)
    && Streaming(q, index, timeout, start)
  }

  lemma NothingBetween(pulls: seq<Pull>, k: nat, index: nat, overdue: set<PullId>)
    requires k <= |pulls|
    ensures NonEmpty(pulls, index, overdue, k, k) == []
    ensures Chunks(pulls, index, overdue, k, k, false)
  {
  }

  /** One more chunk in front, which the consumer did not close on. */
  lemma PartOneMore(
    pulls: seq<Pull>, k: nat, j: nat, index: nat, before: Seen, mid: Seen, after: Seen, was: bool, has: bool, end: End)
    requires k < |pulls|
    requires
      var answer := AnswerOf(pulls, index, before.overdue, k);
      && answer.Chunk? && (answer.text != "" ==> answer.consumer.Resumes?)
      && ((index, k) in before.overdue ==> answer.text != "" || after.timedOut)
      && mid.chunks == before.chunks + (if answer.text != "" then [answer.text] else [])
      && Part(pulls, k + 1, j, index, mid, after, was || answer.text != "", has, end)
    requires mid.overdue == before.overdue && mid.openings == before.openings
    ensures Part(pulls, k, j, index, before, after, was, has, end)
  {
    var answer := AnswerOf(pulls, index, before.overdue, k);
    assert (index, k) in after.overdue <==> (index, k) in before.overdue;
    assert AnswerOf(pulls, index, after.overdue, k) == answer;
    var rest := NonEmpty(pulls, index, after.overdue, k + 1, j);
    assert NonEmpty(pulls, index, after.overdue, k, j) == (if answer.text != "" then [answer.text] else []) + rest;
    assert after.chunks == before.chunks + ((if answer.text != "" then [answer.text] else []) + rest);
  }

  /** A chunk on which the consumer closed. */
  lemma PartClosed(pulls: seq<Pull>, k: nat, index: nat, before: Seen, after: Seen, was: bool)
    requires k < |pulls|
    requires
      var answer := AnswerOf(pulls, index, before.overdue, k);
      && Delivery(answer) && answer.consumer.Closes?
      && after.chunks == before.chunks + [answer.text]
    requires after.overdue == before.overdue && after.openings == before.openings && !after.timedOut
    requires forall m :: (index, m) in before.overdue ==> m <= k
    ensures Part(pulls, k, k + 1, index, before, after, was, true, ConsumerClosed)
  {
    NothingBetween(pulls, k + 1, index, after.overdue);
    assert NonEmpty(pulls, index, after.overdue, k, k + 1) == [AnswerOf(pulls, index, before.overdue, k).text];
  }

  /** A stream that ends at its `k`-th pull. */
  lemma PartEnds(pulls: seq<Pull>, k: nat, index: nat, before: Seen, after: Seen, was: bool, end: End)
    requires k <= |pulls| && EndsAt(pulls, index, after.overdue, k, end, after.timedOut) && !end.ConsumerClosed?
    requires after.chunks == before.chunks && after.openings == before.openings
    requires Grows(before.overdue, after.overdue, index, k)
    requires forall m :: (index, m) in after.overdue ==> m <= k
    ensures Part(pulls, k, k, index, before, after, was, was, end)
  {
    NothingBetween(pulls, k, index, after.overdue);
  }

  lemma TimeOutReads(p: Played, k: nat, index: nat, timeout: nat, start: int, at: int)
    requires Ticking(p, k, index, timeout, start) && at >= p.deadline
    ensures
      var q := TimeOut(p, index, at);
      var before, after := ReadAll(p.acts, start, timeout), ReadAll(q.acts, start, timeout);
      && Streaming(q, index, timeout, start)
      && after == before.(late := true, timedOut := true, inOrder := after.inOrder)
  {
    ReadOneMore(p.acts, TimedOut(index, at), start, timeout);
  }

  lemma PullReads(p: Played, k: nat, index: nat, timeout: nat, start: int, at: int)
    requires Ticking(p, k, index, timeout, start) && p.now < p.deadline
    ensures
      var q := p.(acts := p.acts + [Pulled(index, p.now)], now := at);
      && Ticking(q, k, index, timeout, start)
      && ReadAll(q.acts, start, timeout) == ReadAll(p.acts, start, timeout)
  {
    ReadOneMore(p.acts, Pulled(index, p.now), start, timeout);
  }

  lemma CancelReads(p: Played, k: nat, index: nat, timeout: nat, start: int)
    requires Ticking(p, k, index, timeout, start) && !ReadAll(p.acts, start, timeout).late
    ensures
      var q := Cancel(p, index, k);
      var before, after := ReadAll(p.acts, start, timeout), ReadAll(q.acts, start, timeout);
      && Ticking(q, k + 1, index, timeout, start)
      && after == before.(overdue := before.overdue + {(index, k)}, late := true)
  {
    ReadOneMore(p.acts, Overdue(index, k, p.deadline), start, timeout);
  }

  lemma EmitReads(p: Played, text: string, k: nat, index: nat, timeout: nat, start: int)
    requires Ticking(p, k, index, timeout, start) && text != ""
    ensures
      var q := p.(acts := p.acts + [Emitted(text)], committed := true);
      var before, after := ReadAll(p.acts, start, timeout), ReadAll(q.acts, start, timeout);
      && Ticking(q, k, index, timeout, start)
      && after == before.(chunks := before.chunks + [text])
  {
    ReadOneMore(p.acts, Emitted(text), start, timeout);
  }

  lemma ResumeReads(p: Played, at: int, k: nat, index: nat, timeout: nat, start: int)
    requires Ticking(p, k, index, timeout, start) && p.committed
    ensures
      var q := Resume(p, at, timeout);
      var before, after := ReadAll(p.acts, start, timeout), ReadAll(q.acts, start, timeout);
      && Ticking(q, k, index, timeout, start)
      && after == before.(progress := at, late := false)
  {
    ReadOneMore(p.acts, Resumed(at), start, timeout);
  }

  lemma TimeOutDelivers(pulls: seq<Pull>, k: nat, index: nat, timeout: nat, p: Played, start: int, at: int)
    requires k <= |pulls| && Ticking(p, k, index, timeout, start) && at >= p.deadline
    ensures Delivered(pulls, k, k, index, timeout, start, p, TimeOut(p, index, at))
    ensures ReadAll(TimeOut(p, index, at).acts, start, timeout).timedOut
  {
    var q := TimeOut(p, index, at);
    TimeOutReads(p, k, index, timeout, start, at);
    PartEnds(pulls, k, index, ReadAll(p.acts, start, timeout), ReadAll(q.acts, start, timeout), p.committed, q.end);
  }

  /** Playing a stream appends its non-empty chunks up to where it ended, keeps the acts in order, and
      moves the deadline with the consumer only. */
  lemma {:induction false} PlayDelivers(pulls: seq<Pull>, k: nat, index: nat, timeout: nat, p: Played, start: int)
    returns (j: nat)
    requires k <= |pulls| && Ticking(p, k, index, timeout, start)
    ensures Delivered(pulls, k, j, index, timeout, start, p, Play(pulls, k, index, timeout, p))
    ensures p.now >= p.deadline ==> ReadAll(Play(pulls, k, index, timeout, p).acts, start, timeout).timedOut
    decreases |pulls| - k, 3
  {
    j := k;
    var seen := ReadAll(p.acts, start, timeout);
    if p.now >= p.deadline {
      assert Play(pulls, k, index, timeout, p) == TimeOut(p, index, p.now);
      TimeOutDelivers(pulls, k, index, timeout, p, start, p.now);
    } else {
      var pulled := p.(acts := p.acts + [Pulled(index, p.now)]);
      PullReads(p, k, index, timeout, start, p.now);
      if k == |pulls| {
        assert Play(pulls, k, index, timeout, p) == pulled.(end := Finished);
        PartEnds(pulls, k, index, seen, seen, p.committed, Finished);
      } else if p.now + pulls[k].takes <= p.deadline {
        PullReads(p, k, index, timeout, start, p.now + pulls[k].takes);
        var got := pulled.(now := p.now + pulls[k].takes);
        assert Play(pulls, k, index, timeout, p) == Got(pulls, k, pulls[k].answer, index, timeout, got);
        j := GotDelivers(pulls, k, pulls[k].answer, index, timeout, got, start);
      } else {
        assert Play(pulls, k, index, timeout, p) == AfterCancel(pulls, k, index, timeout, pulled);
        j := CancelDelivers(pulls, k, index, timeout, pulled, start);
      }
    }
  }

  function AfterCancel(pulls: seq<Pull>, k: nat, index: nat, timeout: nat, p: Played): Played
    requires k < |pulls|
  {
    var cancelled := Cancel(p, index, k);
    match pulls[k].cancelled
    case LetsThrough(delay) => TimeOut(cancelled, index, cancelled.now + delay)
    case AnswersLate(delay, late) => Got(pulls, k, late, index, timeout, cancelled.(now := cancelled.now + delay))
  }

  lemma PartFromCancelled(
    pulls: seq<Pull>, k: nat, j: nat, index: nat, before: Seen, mid: Seen, after: Seen, was: bool, has: bool, end: End)
    requires mid.overdue == before.overdue + {(index, k)} && mid.chunks == before.chunks && mid.openings == before.openings
    requires Part(pulls, k, j, index, mid, after, was, has, end)
    ensures Part(pulls, k, j, index, before, after, was, has, end)
  {
  }

  /** The same when the deadline has struck during the `k`-th pull. */
  lemma {:induction false} CancelDelivers(pulls: seq<Pull>, k: nat, index: nat, timeout: nat, p: Played, start: int)
    returns (j: nat)
    requires k < |pulls| && Ticking(p, k, index, timeout, start) && !ReadAll(p.acts, start, timeout).late
    ensures Delivered(pulls, k, j, index, timeout, start, p, AfterCancel(pulls, k, index, timeout, p))
    decreases |pulls| - k, 2
  {
    var cancelled := Cancel(p, index, k);
    CancelReads(p, k, index, timeout, start);
    var q := AfterCancel(pulls, k, index, timeout, p);
    var before, mid := ReadAll(p.acts, start, timeout), ReadAll(cancelled.acts, start, timeout);
    match pulls[k].cancelled
    case LetsThrough(delay) =>
      j := k;
      TimeOutReads(cancelled, k + 1, index, timeout, start, cancelled.now + delay);
      PartEnds(pulls, k, index, before, ReadAll(q.acts, start, timeout), p.committed, q.end);
    case AnswersLate(delay, late) =>
      j := GotDelivers(pulls, k, late, index, timeout, cancelled.(now := cancelled.now + delay), start);
      PartFromCancelled(pulls, k, j, index, before, mid, ReadAll(q.acts, start, timeout), p.committed, q.committed, q.end);
  }

  /** The same once the `k`-th pull has answered. */
  lemma {:induction false} GotDelivers(
    pulls: seq<Pull>, k: nat, answer: Answer, index: nat, timeout: nat, p: Played, start: int) returns (j: nat)
    requires k < |pulls| && Ticking(p, k + 1, index, timeout, start)
    requires AnswerOf(pulls, index, ReadAll(p.acts, start, timeout).overdue, k) == answer
    requires (index, k) in ReadAll(p.acts, start, timeout).overdue ==> pulls[k].cancelled.AnswersLate? && p.now >= p.deadline
    ensures Delivered(pulls, k, j, index, timeout, start, p, Got(pulls, k, answer, index, timeout, p))
    decreases |pulls| - k, 1
  {
    var seen := ReadAll(p.acts, start, timeout);
    j := k;
    if answer.Chunk? && answer.text != "" {
      j := EmitDelivers(pulls, k, answer, index, timeout, p, start);
    } else if answer.Chunk? {
      var q := Play(pulls, k + 1, index, timeout, p);
      j := PlayDelivers(pulls, k + 1, index, timeout, p, start);
      PartOneMore(pulls, k, j, index, seen, seen, ReadAll(q.acts, start, timeout), p.committed, q.committed, q.end);
    } else {
      PartEnds(pulls, k, index, seen, seen, p.committed, if answer.Stops? then Finished else Raised(answer.error));
    }
  }

  /** The same from a non-empty chunk that has just been pulled. */
  lemma {:induction false} EmitDelivers(
    pulls: seq<Pull>, k: nat, answer: Answer, index: nat, timeout: nat, p: Played, start: int) returns (j: nat)
    requires k < |pulls| && Delivery(answer) && Ticking(p, k + 1, index, timeout, start)
    requires AnswerOf(pulls, index, ReadAll(p.acts, start, timeout).overdue, k) == answer
    requires (index, k) in ReadAll(p.acts, start, timeout).overdue ==> pulls[k].cancelled.AnswersLate?
    ensures
      Delivered(pulls, k, j, index, timeout, start, p, Emit(pulls, k, answer.text, answer.consumer, index, timeout, p))
    decreases |pulls| - k, 0
  {
    var before := ReadAll(p.acts, start, timeout);
    EmitReads(p, answer.text, k + 1, index, timeout, start);
    var emitted := p.(acts := p.acts + [Emitted(answer.text)], committed := true);
    j := k + 1;
    if answer.consumer.Closes? {
      PartClosed(pulls, k, index, before, ReadAll(emitted.acts, start, timeout), p.committed);
    } else {
      var at := p.now + answer.consumer.pause;
      var resumed := Resume(emitted, at, timeout);
      ResumeReads(emitted, at, k + 1, index, timeout, start);
      j := PlayDelivers(pulls, k + 1, index, timeout, resumed, start);
      var q := Play(pulls, k + 1, index, timeout, resumed);
      PartOneMore(pulls, k, j, index, before, ReadAll(resumed.acts, start, timeout), ReadAll(q.acts, start, timeout),
                  p.committed, q.committed, q.end);
    }
  }

  // ---- Candidates ----

  predicate Retryable(end: End) {
    end.Raised? && end.error.Execution? && end.error.failure.retryable
  }

  /** The `j`-th pull answered with a failure that may be retried elsewhere, after empty chunks only. */
  predicate FailsAt(pulls: seq<Pull>, index: nat, overdue: set<PullId>, j: nat) {
    && j < |pulls|
    && (forall i | 0 <= i < j ::
          AnswerOf(pulls, index, overdue, i).Chunk? && AnswerOf(pulls, index, overdue, i).text == "")
    && AnswerOf(pulls, index, overdue, j).Raises?
    && Retryable(Raised(AnswerOf(pulls, index, overdue, j).error))
  }

  /** An execution failure that may be retried elsewhere, before anything was delivered, and nothing
      else escaped from closing the stream. */
  predicate FailsUncommitted(c: Candidate, index: nat, overdue: set<PullId>) {
    match c
    case Unusable(_) => false
    case OpenRaises(error) => Retryable(Raised(error))
    case Opens(pulls, closing) =>
      closing.escapes.None? && exists j | 0 <= j < |pulls| :: FailsAt(pulls, index, overdue, j)
  }

  /** The `k`-th pull, which the deadline cancelled, answered that with such a failure. */
  predicate AnswersRetryably(c: Candidate, index: nat, overdue: set<PullId>, k: nat) {
    && c.Opens? && c.closing.escapes.None?
    && k < |c.pulls| && c.pulls[k].cancelled.AnswersLate?
    && FailsAt(c.pulls, index, overdue, k)
  }

  /** The body delivered exactly this candidate's non-empty chunks up to where it ended of its `own`
      accord, and ended so, unless closing the stream raised something else. */
  predicate Delivers(
    c: Candidate, index: nat, overdue: set<PullId>, j: nat, own: End, timedOut: bool, chunks: seq<string>, end: End)
  {
    match c
    case Unusable(error) => chunks == [] && end == own == Raised(error) && !timedOut
    case OpenRaises(error) => chunks == [] && end == own == Raised(error) && !timedOut
    case Opens(pulls, closing) =>
      && Chunks(pulls, index, overdue, 0, j, own.ConsumerClosed?)
      && EndsAt(pulls, index, overdue, j, own, timedOut)
      && chunks == NonEmpty(pulls, index, overdue, 0, j)
      && end == EndAfter(closing, own)
  }

  /** How a body ends that comes to this candidate after the deadline. */
  predicate EndsLate(c: Candidate, end: End) {
    match c
    case Unusable(error) => end == Raised(error)
    case OpenRaises(error) => end == Raised(error)
    case Opens(_, closing) => end == EndAfter(closing, Raised(Execution(PROGRESS_TIMEOUT)))
  }

  ghost predicate Between(p: Played, seen: Seen, index: nat, timeout: nat) {
    && seen.inOrder && seen.open == {}
    && (forall i | i in seen.openings :: i < index)
    && (forall id | id in seen.overdue :: id.0 < index)
    && p.deadline == seen.progress + timeout
    && (seen.late ==> p.now >= p.deadline)
  }

  lemma {:induction false} NothingDelivered(pulls: seq<Pull>, index: nat, overdue: set<PullId>, k: nat, j: nat)
    requires k <= j <= |pulls|
    ensures NonEmpty(pulls, index, overdue, k, j) == [] <==> forall i | k <= i < j :: !Delivery(AnswerOf(pulls, index, overdue, i))
    decreases j - k
  {
    if k < j {
      NothingDelivered(pulls, index, overdue, k + 1, j);
      assert NonEmpty(pulls, index, overdue, k, j) ==
             (if Delivery(AnswerOf(pulls, index, overdue, k)) then [AnswerOf(pulls, index, overdue, k).text] else [])
             + NonEmpty(pulls, index, overdue, k + 1, j);
    }
  }

  /** A pull that the deadline cancelled is moved on from exactly if it answered retryably. */
  lemma OverdueDecides(pulls: seq<Pull>, index: nat, before: Seen, after: Seen, j: nat, has: bool, own: End, k: nat)
    requires Part(pulls, 0, j, index, before, after, false, has, own) && (index, k) in after.overdue
    ensures k < |pulls|
    ensures
      (Retryable(own) && !has <==>
       pulls[k].cancelled.AnswersLate? && FailsAt(pulls, index, after.overdue, k))
  {
    NothingDelivered(pulls, index, after.overdue, 0, j);
    if Retryable(own) && !has {
      assert k == j;
    }
    if pulls[k].cancelled.AnswersLate? && FailsAt(pulls, index, after.overdue, k) {
      assert forall i | 0 <= i < j :: AnswerOf(pulls, index, after.overdue, i).Chunk?;
      if j > 0 {
        assert !Delivery(AnswerOf(pulls, index, after.overdue, j - 1));
      }
    }
  }

  lemma FailsWhere(pulls: seq<Pull>, index: nat, before: Seen, after: Seen, j: nat, has: bool, own: End)
    requires Part(pulls, 0, j, index, before, after, false, has, own) && Retryable(own) && !has
    ensures !after.timedOut && FailsAt(pulls, index, after.overdue, j)
  {
    NothingDelivered(pulls, index, after.overdue, 0, j);
  }

  /** An opened stream: its chunks are appended, and it is open from its first act to its last. */
  lemma OpenedDelivers(pulls: seq<Pull>, closing: Closing, index: nat, timeout: nat, p: Played, start: int)
    returns (j: nat)
    requires Between(p, ReadAll(p.acts, start, timeout), index, timeout) && !ReadAll(p.acts, start, timeout).timedOut
    ensures
      var played := Play(pulls, 0, index, timeout, Begun(p, index));
      var q := Close(played, index, closing);
      var before, after := ReadAll(p.acts, start, timeout), ReadAll(q.acts, start, timeout);
      && Between(q, after, index + 1, timeout)
      && Part(pulls, 0, j, index, before.(openings := after.openings), after, false, q.committed, played.end)
      && after.openings == before.openings + [index]
      && (p.now >= p.deadline ==> played == TimeOut(Begun(p, index), index, p.now) && after.chunks == before.chunks)
  {
    var begun := Begun(p, index);
    ReadOneMore(p.acts, Opened(index), start, timeout);
    j := PlayDelivers(pulls, 0, index, timeout, begun, start);
    var played := Play(pulls, 0, index, timeout, begun);
    ReadOneMore(played.acts, Closed(index, played.now + closing.takes), start, timeout);
    assert Close(played, index, closing).acts == played.acts + [Closed(index, played.now + closing.takes)];
    if p.now >= p.deadline {
      TimeOutReads(begun, 0, index, timeout, start, p.now);
    }
  }

  /** One candidate: it appends its own chunks only, and the loop moves on from it exactly if it failed
      retryably and uncommitted with a successor and nothing escaped from its close. From a pull that
      the deadline cancelled it moves on exactly if that pull answered so. */
  ghost predicate Attempted(
    c: Candidate, index: nat, last: bool, j: nat, own: End, p: Played, before: Seen, q: Played, after: Seen)
  {
    && |before.chunks| <= |after.chunks| && before.chunks == after.chunks[..|before.chunks|]
    && Delivers(c, index, after.overdue, j, own, after.timedOut, after.chunks[|before.chunks|..], q.end)
    && after.openings == before.openings + (if c.Opens? then [index] else [])
    && Grows(before.overdue, after.overdue, index, 0)
    && (Advances(c, q, last) ==>
          FailsUncommitted(c, index, after.overdue) && after.chunks == before.chunks && !last && !after.timedOut)
    && (!Advances(c, q, last) && !last && Retryable(q.end) ==> c.Unusable? || after.chunks != before.chunks)
    && (forall k :: (index, k) in after.overdue ==>
          && c.Opens? && k < |c.pulls|
          && (Advances(c, q, last) <==> AnswersRetryably(c, index, after.overdue, k) && !last))
    && (p.now >= p.deadline ==> after.chunks == before.chunks && EndsLate(c, q.end))
  }

  lemma OpenedAttempted(
    c: Candidate, index: nat, last: bool, j: nat, own: End, p: Played, before: Seen, q: Played, after: Seen)
    requires c.Opens? && Part(c.pulls, 0, j, index, before.(openings := after.openings), after, false, q.committed, own)
    requires q.end == EndAfter(c.closing, own) && after.openings == before.openings + [index]
    requires p.now >= p.deadline ==> own == Raised(Execution(PROGRESS_TIMEOUT)) && after.chunks == before.chunks
    ensures Attempted(c, index, last, j, own, p, before, q, after)
  {
    var chunks := NonEmpty(c.pulls, index, after.overdue, 0, j);
    assert (before.chunks + chunks)[|before.chunks|..] == chunks && (before.chunks + chunks)[..|before.chunks|] == before.chunks;
    if Retryable(own) && !q.committed {
      FailsWhere(c.pulls, index, before.(openings := after.openings), after, j, q.committed, own);
    }
    forall k | (index, k) in after.overdue
      ensures k < |c.pulls|
      ensures Advances(c, q, last) <==> AnswersRetryably(c, index, after.overdue, k) && !last
    {
      OverdueDecides(c.pulls, index, before.(openings := after.openings), after, j, q.committed, own, k);
    }
  }

  lemma AttemptDelivers(c: Candidate, index: nat, timeout: nat, p: Played, start: int, last: bool)
    returns (j: nat, own: End)
    requires Between(p, ReadAll(p.acts, start, timeout), index, timeout) && !ReadAll(p.acts, start, timeout).timedOut
    ensures
      var q := Attempt(c, index, timeout, p);
      var before, after := ReadAll(p.acts, start, timeout), ReadAll(q.acts, start, timeout);
      Between(q, after, index + 1, timeout) && Attempted(c, index, last, j, own, p, before, q, after)
  {
    var q := Attempt(c, index, timeout, p);
    var before := ReadAll(p.acts, start, timeout);
    j, own := 0, q.end;
    if c.Opens? {
      j := OpenedDelivers(c.pulls, c.closing, index, timeout, p, start);
      own := Play(c.pulls, 0, index, timeout, Begun(p, index)).end;
      OpenedAttempted(c, index, last, j, own, p, before, q, ReadAll(q.acts, start, timeout));
    }
  }

  // ---- The whole body ----

  /** The deadline cancelled the same pulls of stream `i`. */
  ghost predicate SameFor(a: set<PullId>, b: set<PullId>, i: nat) {
    forall k :: (i, k) in a <==> (i, k) in b
  }

  lemma FailsFrame(c: Candidate, i: nat, a: set<PullId>, b: set<PullId>)
    requires SameFor(a, b, i)
    ensures FailsUncommitted(c, i, a) ==> FailsUncommitted(c, i, b)
    ensures forall k :: AnswersRetryably(c, i, a, k) <==> AnswersRetryably(c, i, b, k)
  {
    if c.Opens? {
      assert forall k: nat | k < |c.pulls| :: AnswerOf(c.pulls, i, a, k) == AnswerOf(c.pulls, i, b, k);
      forall j: nat
        ensures FailsAt(c.pulls, i, a, j) <==> FailsAt(c.pulls, i, b, j)
      {
      }
    }
  }

  /** Before anything is delivered, a cancelled pull means that the deadline is still missed. */
  lemma {:induction false} OverdueIsLate(acts: seq<Act>, start: int, timeout: nat)
    requires ReadAll(acts, start, timeout).inOrder
    ensures
      var seen := ReadAll(acts, start, timeout);
      seen.chunks == [] && seen.overdue != {} ==> seen.late
    decreases |acts|
  {
    if acts != [] {
      OverdueIsLate(acts[..|acts| - 1], start, timeout);
    }
  }

  /** What the body from candidate `index` on comes to. */
  ghost predicate Won(
    candidates: seq<Candidate>, index: nat, w: nat, j: nat, own: End, before: Seen, q: Played, seen: Seen)
    requires index <= w < |candidates|
  {
    && (forall i | index <= i < w :: FailsUncommitted(candidates[i], i, seen.overdue))
    && Delivers(candidates[w], w, seen.overdue, j, own, seen.timedOut, seen.chunks, q.end)
    && (Retryable(q.end) && w + 1 < |candidates| ==> candidates[w].Unusable? || seen.chunks != [])
    && seen.inOrder && seen.open == {}
    && (forall i :: i in seen.openings <==> i in before.openings || (index <= i <= w && candidates[i].Opens?))
    && before.overdue <= seen.overdue
    && (forall id | id in seen.overdue && id !in before.overdue :: index <= id.0 <= w)
  }

  /** What the pulls that the deadline cancelled decide. */
  ghost predicate Decided(candidates: seq<Candidate>, index: nat, w: nat, q: Played, seen: Seen)
    requires index <= w < |candidates|
  {
    forall i, k :: (i, k) in seen.overdue && i >= index ==>
      && i <= w && candidates[i].Opens? && k < |candidates[i].pulls|
      && (w > i <==> AnswersRetryably(candidates[i], i, seen.overdue, k) && i + 1 < |candidates|)
      && (w > i ==> seen.chunks == [] && EndsLate(candidates[w], q.end))
  }

  lemma WonOneMore(
    candidates: seq<Candidate>, index: nat, w: nat, j: nat, own: End, before: Seen, mid: Seen, q: Played, seen: Seen)
    requires index < w < |candidates|
    requires Won(candidates, index + 1, w, j, own, mid, q, seen)
    requires FailsUncommitted(candidates[index], index, mid.overdue) && Grows(before.overdue, mid.overdue, index, 0)
    requires mid.openings == before.openings + (if candidates[index].Opens? then [index] else [])
    ensures Won(candidates, index, w, j, own, before, q, seen)
    ensures SameFor(mid.overdue, seen.overdue, index)
  {
    FailsFrame(candidates[index], index, mid.overdue, seen.overdue);
  }

  /** The candidate that is not moved on from is the winner. */
  lemma WonHere(
    candidates: seq<Candidate>, index: nat, j: nat, own: End, p: Played, before: Seen, q: Played, seen: Seen)
    requires index < |candidates| && before.chunks == []
    requires Attempted(candidates[index], index, index + 1 == |candidates|, j, own, p, before, q, seen)
    requires !Advances(candidates[index], q, index + 1 == |candidates|)
    requires seen.inOrder && seen.open == {} && forall id | id in before.overdue :: id.0 < index
    ensures Won(candidates, index, index, j, own, before, q, seen) && Decided(candidates, index, index, q, seen)
  {
    assert seen.chunks[0..] == seen.chunks;
  }

  lemma DecidedOneMore(candidates: seq<Candidate>, index: nat, w: nat, mid: Seen, q: Played, seen: Seen)
    requires index < w < |candidates| && Decided(candidates, index + 1, w, q, seen)
    requires SameFor(mid.overdue, seen.overdue, index)
    requires mid.overdue != {} ==> seen.chunks == [] && EndsLate(candidates[w], q.end)
    requires forall k :: (index, k) in mid.overdue ==>
               && candidates[index].Opens? && k < |candidates[index].pulls|
               && AnswersRetryably(candidates[index], index, mid.overdue, k)
    ensures Decided(candidates, index, w, q, seen)
  {
    FailsFrame(candidates[index], index, mid.overdue, seen.overdue);
  }

  /** From candidate `index` on: everyone before the winner failed without delivering anything, the
      winner alone delivered, and it is the last one or did not fail that way. */
  lemma {:induction false} BodyHasOneWinner(candidates: seq<Candidate>, index: nat, timeout: nat, p: Played, start: int)
    returns (j: nat, own: End)
    requires index < |candidates|
    requires Between(p, ReadAll(p.acts, start, timeout), index, timeout)
    requires ReadAll(p.acts, start, timeout).chunks == [] && !ReadAll(p.acts, start, timeout).timedOut
    ensures
      var q, w := Body(candidates, index, timeout, p), Winner(candidates, index, timeout, p);
      var seen := ReadAll(q.acts, start, timeout);
      && Won(candidates, index, w, j, own, ReadAll(p.acts, start, timeout), q, seen)
      && Decided(candidates, index, w, q, seen)
      && (p.now >= p.deadline ==> seen.chunks == [] && EndsLate(candidates[w], q.end))
    decreases |candidates| - index
  {
    var c, last := candidates[index], index + 1 == |candidates|;
    j, own := AttemptDelivers(c, index, timeout, p, start, last);
    var played := Attempt(c, index, timeout, p);
    var before, mid := ReadAll(p.acts, start, timeout), ReadAll(played.acts, start, timeout);
    if Advances(c, played, last) {
      j, own := BodyHasOneWinner(candidates, index + 1, timeout, played, start);
      var q, w := Body(candidates, index + 1, timeout, played), Winner(candidates, index + 1, timeout, played);
      var seen := ReadAll(q.acts, start, timeout);
      WonOneMore(candidates, index, w, j, own, before, mid, q, seen);
      OverdueIsLate(played.acts, start, timeout);
      DecidedOneMore(candidates, index, w, mid, q, seen);
      if p.now >= p.deadline {
        AdvancedLate(c, index, timeout, p, start, last);
      }
    } else {
      WonHere(candidates, index, j, own, p, before, played, mid);
    }
  }

  /** Whoever is moved on from after the deadline leaves the clock there. */
  lemma AdvancedLate(c: Candidate, index: nat, timeout: nat, p: Played, start: int, last: bool)
    requires p.now >= p.deadline && Advances(c, Attempt(c, index, timeout, p), last)
    ensures Attempt(c, index, timeout, p).now >= Attempt(c, index, timeout, p).deadline
  {
  }

  // ---- What the executor promises ----

  /** Fallback is invisible. For every list of candidates and whatever each of them, its close and the
      consumer do, there is one winner. All candidates before it failed retryably without a non-empty
      chunk. The client sees exactly the winner's non-empty chunks up to its own end or the consumer's
      first close, and that end, except that a cancellation or exception group raised by closing the
      winner's stream takes its place. Unless it is the last candidate or could not be used at all, the
      body does not end with a retryable failure before a chunk. Exactly the candidates up to the winner
      that open are opened, each once and in order, never two streams at a time, and every one is closed. */
  lemma FallbackHasOneWinner(candidates: seq<Candidate>, timeout: nat, start: int) returns (w: nat, j: nat, own: End)
    requires candidates != []
    ensures
      var body := Body(candidates, 0, timeout, Begin(start, timeout));
      var seen := ReadAll(body.acts, start, timeout);
      && w == Winner(candidates, 0, timeout, Begin(start, timeout))
      && (forall i | 0 <= i < w :: FailsUncommitted(candidates[i], i, seen.overdue))
      && Delivers(candidates[w], w, seen.overdue, j, own, seen.timedOut, seen.chunks, body.end)
      && (Retryable(body.end) && w + 1 < |candidates| ==> candidates[w].Unusable? || seen.chunks != [])
      && seen.inOrder && seen.open == {}
      && (forall i: nat :: i in seen.openings <==> i <= w && candidates[i].Opens?)
  {
    w := Winner(candidates, 0, timeout, Begin(start, timeout));
    j, own := BodyHasOneWinner(candidates, 0, timeout, Begin(start, timeout), start);
  }

  /** A close that raises ends the body: once a candidate is opened whose stream raises a cancellation or
      exception group when it is closed, that is how the body ends and no later candidate is opened,
      even where the stream failed in a way that is retried elsewhere. */
  lemma RaisingCloseStopsFallback(candidates: seq<Candidate>, timeout: nat, start: int, m: nat)
    requires m < |candidates| && candidates[m].Opens? && candidates[m].closing.escapes.Some?
    requires m in ReadAll(Body(candidates, 0, timeout, Begin(start, timeout)).acts, start, timeout).openings
    ensures
      var body := Body(candidates, 0, timeout, Begin(start, timeout));
      && body.end == Raised(Other(candidates[m].closing.escapes.value))
      && (forall i | i in ReadAll(body.acts, start, timeout).openings :: i <= m)
  {
    var w, j, own := FallbackHasOneWinner(candidates, timeout, start);
    var seen := ReadAll(Body(candidates, 0, timeout, Begin(start, timeout)).acts, start, timeout);
    assert !FailsUncommitted(candidates[m], m, seen.overdue);
  }

  lemma {:induction false} OrderLasts(acts: seq<Act>, n: nat, start: int, timeout: nat)
    requires n <= |acts| && ReadAll(acts, start, timeout).inOrder
    ensures ReadAll(acts[..n], start, timeout).inOrder
    decreases |acts|
  {
    if n < |acts| {
      OrderLasts(acts[..|acts| - 1], n, start, timeout);
      assert acts[..|acts| - 1][..n] == acts[..n];
    } else {
      assert acts[..n] == acts;
    }
  }

  /** When the consumer last resumed after a delivered chunk. */
  function LastProgress(acts: seq<Act>, start: int): int {
    if acts == [] then start
    else if acts[|acts| - 1].Resumed? then acts[|acts| - 1].at
    else LastProgress(acts[..|acts| - 1], start)
  }

  lemma {:induction false} ProgressIsLastResume(acts: seq<Act>, start: int, timeout: nat)
    ensures ReadAll(acts, start, timeout).progress == LastProgress(acts, start)
    decreases |acts|
  {
    if acts != [] {
      ProgressIsLastResume(acts[..|acts| - 1], start, timeout);
    }
  }

  function BodyActs(candidates: seq<Candidate>, timeout: nat, start: int): seq<Act>
    requires candidates != []
  {
    Body(candidates, 0, timeout, Begin(start, timeout)).acts
  }

  lemma StepInOrder(acts: seq<Act>, n: nat, start: int, timeout: nat)
    requires n < |acts| && ReadAll(acts, start, timeout).inOrder
    ensures ReadAll(acts[..n + 1], start, timeout) == Read(ReadAll(acts[..n], start, timeout), acts[n], timeout)
    ensures ReadAll(acts[..n], start, timeout).inOrder && ReadAll(acts[..n + 1], start, timeout).inOrder
  {
    OrderLasts(acts, n, start, timeout);
    OrderLasts(acts, n + 1, start, timeout);
    assert acts[..n + 1] == acts[..n] + [acts[n]];
    ReadOneMore(acts[..n], acts[n], start, timeout);
  }

  /** The acts of a body are in order, and every stream it opened is closed. */
  lemma BodyInOrder(candidates: seq<Candidate>, timeout: nat, start: int)
    requires candidates != []
    ensures
      var seen := ReadAll(BodyActs(candidates, timeout, start), start, timeout);
      seen.inOrder && seen.open == {}
  {
    var w, j, own := FallbackHasOneWinner(candidates, timeout, start);
  }

  lemma InOrderAt(candidates: seq<Candidate>, timeout: nat, start: int, n: nat)
    requires candidates != [] && n < |BodyActs(candidates, timeout, start)|
    ensures
      var acts := BodyActs(candidates, timeout, start);
      var before := ReadAll(acts[..n], start, timeout);
      && ReadAll(acts[..n + 1], start, timeout) == Read(before, acts[n], timeout)
      && Read(before, acts[n], timeout).inOrder
      && before.progress == LastProgress(acts[..n], start)
  {
    var acts := BodyActs(candidates, timeout, start);
    BodyInOrder(candidates, timeout, start);
    StepInOrder(acts, n, start, timeout);
    ProgressIsLastResume(acts[..n], start, timeout);
  }

  /** The progress deadline, act by act: whenever a pull starts, less than the timeout has passed since
      the consumer last resumed after a delivered chunk, or since the start. Neither empty chunks nor
      fallbacks push that moment out. */
  lemma PullsRespectTheDeadline(candidates: seq<Candidate>, timeout: nat, start: int, n: nat)
    requires candidates != []
    requires n < |BodyActs(candidates, timeout, start)| && BodyActs(candidates, timeout, start)[n].Pulled?
    ensures
      var acts := BodyActs(candidates, timeout, start);
      && acts[n].at < LastProgress(acts[..n], start) + timeout
      && ReadAll(acts[..n], start, timeout).open == {acts[n].index}
  {
    InOrderAt(candidates, timeout, start, n);
  }

  // ---- The missed deadline ----

  predicate MissesDeadline(act: Act) {
    act.Overdue? || act.TimedOut?
  }

  /** A pull is cancelled exactly when the whole timeout has passed since the last delivered progress, and
      the timeout failure is raised only then or later. */
  lemma TimeoutMeansNoProgress(candidates: seq<Candidate>, timeout: nat, start: int, n: nat)
    requires candidates != []
    requires n < |BodyActs(candidates, timeout, start)| && MissesDeadline(BodyActs(candidates, timeout, start)[n])
    ensures
      var acts := BodyActs(candidates, timeout, start);
      && acts[n].at >= LastProgress(acts[..n], start) + timeout
      && (acts[n].Overdue? ==> acts[n].at == LastProgress(acts[..n], start) + timeout)
  {
    InOrderAt(candidates, timeout, start, n);
  }

  lemma {:induction false} LateLasts(candidates: seq<Candidate>, timeout: nat, start: int, n: nat, m: nat)
    requires candidates != [] && n < m <= |BodyActs(candidates, timeout, start)|
    requires MissesDeadline(BodyActs(candidates, timeout, start)[n])
    requires forall r :: n < r < m ==> !BodyActs(candidates, timeout, start)[r].Resumed?
    ensures ReadAll(BodyActs(candidates, timeout, start)[..m], start, timeout).late
    decreases m
  {
    InOrderAt(candidates, timeout, start, m - 1);
    if n < m - 1 {
      LateLasts(candidates, timeout, start, n, m - 1);
    }
  }

  /** After the deadline was missed no pull starts any more, of any candidate, unless a chunk that came
      late was delivered and the consumer resumed in between. */
  lemma NoPullAfterTheDeadline(candidates: seq<Candidate>, timeout: nat, start: int, n: nat, m: nat)
    requires candidates != [] && n < m < |BodyActs(candidates, timeout, start)|
    requires MissesDeadline(BodyActs(candidates, timeout, start)[n]) && BodyActs(candidates, timeout, start)[m].Pulled?
    ensures exists r :: n < r < m && BodyActs(candidates, timeout, start)[r].Resumed?
  {
    if forall r :: n < r < m ==> !BodyActs(candidates, timeout, start)[r].Resumed? {
      LateLasts(candidates, timeout, start, n, m);
      InOrderAt(candidates, timeout, start, m);
    }
  }

  lemma TimedOutThenClosed(acts: seq<Act>, n: nat, start: int, timeout: nat)
    requires n < |acts| && acts[n].TimedOut?
    requires ReadAll(acts, start, timeout).inOrder && ReadAll(acts, start, timeout).open == {}
    ensures |acts| == n + 2 && acts[n + 1].Closed? && acts[n + 1].index == acts[n].index
    ensures ReadAll(acts, start, timeout).timedOut
  {
    assert acts[..|acts|] == acts;
    StepInOrder(acts, n, start, timeout);
    if n + 1 < |acts| {
      StepInOrder(acts, n + 1, start, timeout);
      if n + 2 < |acts| {
        StepInOrder(acts, n + 2, start, timeout);
      }
    }
  }

  lemma OnlyTheCloseFollows(candidates: seq<Candidate>, timeout: nat, start: int, n: nat)
    requires candidates != []
    requires n < |BodyActs(candidates, timeout, start)| && BodyActs(candidates, timeout, start)[n].TimedOut?
    ensures
      var acts := BodyActs(candidates, timeout, start);
      && |acts| == n + 2 && acts[n + 1].Closed? && acts[n + 1].index == acts[n].index
      && ReadAll(acts, start, timeout).timedOut
  {
    BodyInOrder(candidates, timeout, start);
    TimedOutThenClosed(BodyActs(candidates, timeout, start), n, start, timeout);
  }

  /** The timeout failure never leads to a fallback, although it is an execution failure like any other
      that is raised inside the `try`: nothing follows it but the close of the stream, and the body ends
      with it, unless that close raises something else. */
  lemma NoTimeoutAdvances(candidates: seq<Candidate>, timeout: nat, start: int, n: nat) returns (w: nat)
    requires candidates != []
    requires n < |BodyActs(candidates, timeout, start)| && BodyActs(candidates, timeout, start)[n].TimedOut?
    ensures
      var body := Body(candidates, 0, timeout, Begin(start, timeout));
      && |body.acts| == n + 2 && body.acts[n + 1].Closed? && body.acts[n + 1].index == body.acts[n].index
      && w < |candidates| && candidates[w].Opens?
      && body.end == EndAfter(candidates[w].closing, Raised(Execution(PROGRESS_TIMEOUT)))
  {
    OnlyTheCloseFollows(candidates, timeout, start, n);
    var j, own;
    w, j, own := FallbackHasOneWinner(candidates, timeout, start);
  }

  /** When the deadline cancels a pull, the body moves on to another candidate exactly if that pull
      answers the cancellation with a retryable execution failure, after empty chunks only, with a
      successor, and closing the stream raises nothing else. Even then nothing is delivered any more, no
      pull starts, and the candidate it comes to ends it: an opened one with the timeout failure. */
  lemma DeadlineFallback(candidates: seq<Candidate>, timeout: nat, start: int, i: nat, k: nat)
    requires candidates != []
    requires (i, k) in ReadAll(BodyActs(candidates, timeout, start), start, timeout).overdue
    ensures
      var body := Body(candidates, 0, timeout, Begin(start, timeout));
      var w, seen := Winner(candidates, 0, timeout, Begin(start, timeout)), ReadAll(body.acts, start, timeout);
      && i <= w && candidates[i].Opens? && k < |candidates[i].pulls|
      && (w > i <==> AnswersRetryably(candidates[i], i, seen.overdue, k) && i + 1 < |candidates|)
      && (w > i ==> seen.chunks == [] && EndsLate(candidates[w], body.end))
  {
    var j, own := BodyHasOneWinner(candidates, 0, timeout, Begin(start, timeout), start);
  }

  /** So the promise that a missed deadline never leads to a fallback is false of a stream that answers
      its cancellation with a retryable failure: the next candidate is opened after the deadline. */
  lemma AnsweredCancellationFallsBack() returns (candidates: seq<Candidate>)
    ensures candidates != []
    ensures
      var body := Body(candidates, 0, 10, Begin(0, 10));
      && body.acts == [Opened(0), Pulled(0, 0), Overdue(0, 0, 10), Closed(0, 10), Opened(1), TimedOut(1, 10), Closed(1, 10)]
      && body.end == Raised(Execution(PROGRESS_TIMEOUT))
  {
    var answer := Raises(Execution(Failure(503, true)));
    var pulls, fine := [Pull(11, Stops, AnswersLate(0, answer))], Closing(0, None);
    candidates := [Opens(pulls, fine), Opens([], fine)];
    var begun := Begun(Begin(0, 10), 0);
    var cancelled := Cancel(begun.(acts := begun.acts + [Pulled(0, 0)]), 0, 0);
    assert Play(pulls, 0, 0, 10, begun) == Got(pulls, 0, answer, 0, 10, cancelled);
    var first := Attempt(candidates[0], 0, 10, Begin(0, 10));
    assert first == Close(cancelled.(end := Raised(answer.error)), 0, fine);
    assert Advances(candidates[0], first, false);
    var late := Begun(first, 1);
    assert Play([], 0, 1, 10, late) == TimeOut(late, 1, 10);
    var second := Attempt(candidates[1], 1, 10, first);
    assert second == Close(TimeOut(late, 1, 10), 1, fine);
    assert Body(candidates, 1, 10, first) == second;
  }
}
