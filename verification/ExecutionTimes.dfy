/** The fallback loop act by act: what follows each pull and when, read off the script of its stream. */
module ExecutionTimes {
  import opened Options
  import opened Execution
  import opened ExecutionProofs

  // ---- Reading the acts ----

  /** How often stream `i` was pulled. */
  function PullsOf(acts: seq<Act>, i: nat): nat {
    if acts == [] then 0
    else
      PullsOf(acts[..|acts| - 1], i)
      + if acts[|acts| - 1].Pulled? && acts[|acts| - 1].index == i then 1 else 0
  }

  /** When the last stream was closed, or the start. */
  function LastClose(acts: seq<Act>, start: int): int {
    if acts == [] then start
    else if acts[|acts| - 1].Closed? then acts[|acts| - 1].at
    else LastClose(acts[..|acts| - 1], start)
  }

  predicate NextIs(acts: seq<Act>, m: nat, act: Act) {
    m < |acts| && acts[m] == act
  }

  /** The next pull, or the timeout failure if the deadline has come. */
  function PullOrTimeOut(i: nat, at: int, deadline: int): Act {
    if at >= deadline then TimedOut(i, at) else Pulled(i, at)
  }

  /** What follows an answer that comes at `at`: the close after an end or a failure; the next pull at once
      after an empty chunk; and a non-empty chunk is delivered, followed by the close if its consumer closes,
      and otherwise, when it resumes, by the next pull under a new deadline. */
  predicate Follows(acts: seq<Act>, m: nat, answer: Answer, i: nat, closing: Closing, timeout: nat, at: int, deadline: int) {
    match answer
    case Stops => NextIs(acts, m, Closed(i, at + closing.takes))
    case Raises(_) => NextIs(acts, m, Closed(i, at + closing.takes))
    case Chunk(text, consumer) =>
      if text == "" then NextIs(acts, m, PullOrTimeOut(i, at, deadline))
      else
        && NextIs(acts, m, Emitted(text))
        && match consumer
           case Closes => NextIs(acts, m + 1, Closed(i, at + closing.takes))
           case Resumes(pause) =>
             && NextIs(acts, m + 1, Resumed(at + pause))
             && NextIs(acts, m + 2, PullOrTimeOut(i, at + pause, at + pause + timeout))
  }

  /** What follows a pull. Past the script the stream is over. A pull that answers by the deadline answers
      when its script says; any other is cancelled when the deadline comes, and then either lets that
      through, which ends in the timeout failure, or answers as late as its script says. */
  predicate PullGoesOn(acts: seq<Act>, n: nat, pulls: seq<Pull>, closing: Closing, i: nat, timeout: nat, start: int)
    requires n < |acts| && acts[n].Pulled?
  {
    var k, at, deadline := PullsOf(acts[..n], i), acts[n].at, LastProgress(acts[..n], start) + timeout;
    if k >= |pulls| then NextIs(acts, n + 1, Closed(i, at + closing.takes))
    else if at + pulls[k].takes <= deadline then
      Follows(acts, n + 1, pulls[k].answer, i, closing, timeout, at + pulls[k].takes, deadline)
    else
      && NextIs(acts, n + 1, Overdue(i, k, deadline))
      && match pulls[k].cancelled
         case LetsThrough(delay) => NextIs(acts, n + 2, TimedOut(i, deadline + delay))
         case AnswersLate(delay, late) => Follows(acts, n + 2, late, i, closing, timeout, deadline + delay, deadline)
  }

  /** Every act of a stream is followed as it should be: its opening by the first pull when the one before
      is closed, its pulls as above, and the timeout failure by the close. */
  ghost predicate ActGoesOn(acts: seq<Act>, n: nat, candidates: seq<Candidate>, timeout: nat, start: int)
    requires n < |acts|
  {
    match acts[n]
    case Opened(i) =>
      NextIs(acts, n + 1, PullOrTimeOut(i, LastClose(acts[..n], start), LastProgress(acts[..n], start) + timeout))
    case Pulled(i, _) =>
      && i < |candidates| && candidates[i].Opens?
      && PullGoesOn(acts, n, candidates[i].pulls, candidates[i].closing, i, timeout, start)
    case TimedOut(i, at) =>
      i < |candidates| && candidates[i].Opens? && NextIs(acts, n + 1, Closed(i, at + candidates[i].closing.takes))
    case _ => true
  }

  // ---- Prefixes ----

  lemma {:induction false} PlayExtends(pulls: seq<Pull>, k: nat, i: nat, timeout: nat, p: Played)
    requires k <= |pulls|
    ensures
      var q := Play(pulls, k, i, timeout, p);
      && p.acts <= q.acts && |p.acts| < |q.acts|
      && q.acts[|p.acts|] == PullOrTimeOut(i, p.now, p.deadline)
    decreases |pulls| - k, 2
  {
    if p.now < p.deadline && k < |pulls| {
      var pulled := p.(acts := p.acts + [Pulled(i, p.now)]);
      if p.now + pulls[k].takes <= p.deadline {
        GotExtends(pulls, k, pulls[k].answer, i, timeout, pulled.(now := p.now + pulls[k].takes));
      } else if pulls[k].cancelled.AnswersLate? {
        var cancelled := Cancel(pulled, i, k);
        GotExtends(pulls, k, pulls[k].cancelled.late, i, timeout,
                   cancelled.(now := cancelled.now + pulls[k].cancelled.delay));
      }
    }
  }

  lemma {:induction false} GotExtends(pulls: seq<Pull>, k: nat, answer: Answer, i: nat, timeout: nat, p: Played)
    requires k < |pulls|
    ensures p.acts <= Got(pulls, k, answer, i, timeout, p).acts
    decreases |pulls| - k, 1
  {
    if answer.Chunk? {
      if answer.text == "" {
        PlayExtends(pulls, k + 1, i, timeout, p);
      } else if answer.consumer.Resumes? {
        var emitted := p.(acts := p.acts + [Emitted(answer.text)], committed := true);
        PlayExtends(pulls, k + 1, i, timeout, Resume(emitted, p.now + answer.consumer.pause, timeout));
      }
    }
  }

  /** The acts of a stream from its opening to its close. */
  function Whole(q: Played, i: nat, closing: Closing): seq<Act> {
    q.acts + [Closed(i, q.now + closing.takes)]
  }

  lemma AnswerIsFollowed(pulls: seq<Pull>, k: nat, answer: Answer, i: nat, closing: Closing, timeout: nat, p: Played)
    requires k < |pulls|
    ensures
      Follows(Whole(Got(pulls, k, answer, i, timeout, p), i, closing), |p.acts|, answer, i, closing, timeout, p.now, p.deadline)
  {
    if answer.Chunk? {
      if answer.text == "" {
        PlayExtends(pulls, k + 1, i, timeout, p);
      } else if answer.consumer.Resumes? {
        var emitted := p.(acts := p.acts + [Emitted(answer.text)], committed := true);
        PlayExtends(pulls, k + 1, i, timeout, Resume(emitted, p.now + answer.consumer.pause, timeout));
      }
    }
  }

  // ---- One stream ----

  /** Before the `k`-th pull. */
  ghost predicate Before(p: Played, k: nat, i: nat, timeout: nat, start: int) {
    PullsOf(p.acts, i) == k && p.deadline == LastProgress(p.acts, start) + timeout
  }

  lemma ReadingOneMore(acts: seq<Act>, act: Act, i: nat, start: int)
    ensures PullsOf(acts + [act], i) == PullsOf(acts, i) + (if act.Pulled? && act.index == i then 1 else 0)
    ensures LastProgress(acts + [act], start) == if act.Resumed? then act.at else LastProgress(acts, start)
    ensures LastClose(acts + [act], start) == if act.Closed? then act.at else LastClose(acts, start)
  {
    assert (acts + [act])[..|acts|] == acts;
  }

  /** A stream's act goes on as its script says. */
  ghost predicate StreamGoesOn(acts: seq<Act>, n: nat, pulls: seq<Pull>, closing: Closing, i: nat, timeout: nat, start: int)
    requires n < |acts|
  {
    && (acts[n].Pulled? ==> acts[n].index == i && PullGoesOn(acts, n, pulls, closing, i, timeout, start))
    && (acts[n].TimedOut? ==> acts[n].index == i && NextIs(acts, n + 1, Closed(i, acts[n].at + closing.takes)))
    && !acts[n].Opened?
  }

  /** What the pull itself is followed by. */
  lemma PullIsFollowed(
    acts: seq<Act>, pulls: seq<Pull>, k: nat, i: nat, closing: Closing, timeout: nat, p: Played, start: int)
    requires Before(p, k, i, timeout, start) && p.acts + [Pulled(i, p.now)] <= acts
    requires
      if k >= |pulls| then NextIs(acts, |p.acts| + 1, Closed(i, p.now + closing.takes))
      else if p.now + pulls[k].takes <= p.deadline then
        Follows(acts, |p.acts| + 1, pulls[k].answer, i, closing, timeout, p.now + pulls[k].takes, p.deadline)
      else
        && NextIs(acts, |p.acts| + 1, Overdue(i, k, p.deadline))
        && match pulls[k].cancelled
           case LetsThrough(delay) => NextIs(acts, |p.acts| + 2, TimedOut(i, p.deadline + delay))
           case AnswersLate(delay, late) =>
             Follows(acts, |p.acts| + 2, late, i, closing, timeout, p.deadline + delay, p.deadline)
    ensures StreamGoesOn(acts, |p.acts|, pulls, closing, i, timeout, start)
  {
    assert acts[|p.acts|] == (p.acts + [Pulled(i, p.now)])[|p.acts|];
    assert acts[..|p.acts|] == p.acts;
  }

  lemma {:induction false} PlayGoesOn(
    pulls: seq<Pull>, k: nat, i: nat, closing: Closing, timeout: nat, p: Played, start: int, n: nat)
    requires k <= |pulls| && Before(p, k, i, timeout, start)
    requires |p.acts| <= n < |Whole(Play(pulls, k, i, timeout, p), i, closing)|
    ensures StreamGoesOn(Whole(Play(pulls, k, i, timeout, p), i, closing), n, pulls, closing, i, timeout, start)
    decreases |pulls| - k, 3
  {
    if p.now < p.deadline && k == |pulls| {
      if n == |p.acts| {
        PullIsFollowed(Whole(Play(pulls, k, i, timeout, p), i, closing), pulls, k, i, closing, timeout, p, start);
      }
    } else if p.now < p.deadline && p.now + pulls[k].takes <= p.deadline {
      InTimeGoesOn(pulls, k, i, closing, timeout, p, start, n);
    } else if p.now < p.deadline {
      CancelGoesOn(pulls, k, i, closing, timeout, p, start, n);
    }
  }

  lemma {:induction false} InTimeGoesOn(
    pulls: seq<Pull>, k: nat, i: nat, closing: Closing, timeout: nat, p: Played, start: int, n: nat)
    requires k < |pulls| && Before(p, k, i, timeout, start) && p.now < p.deadline && p.now + pulls[k].takes <= p.deadline
    requires |p.acts| <= n < |Whole(Play(pulls, k, i, timeout, p), i, closing)|
    ensures StreamGoesOn(Whole(Play(pulls, k, i, timeout, p), i, closing), n, pulls, closing, i, timeout, start)
    decreases |pulls| - k, 2
  {
    var got := p.(acts := p.acts + [Pulled(i, p.now)], now := p.now + pulls[k].takes);
    assert Play(pulls, k, i, timeout, p) == Got(pulls, k, pulls[k].answer, i, timeout, got);
    if n == |p.acts| {
      GotExtends(pulls, k, pulls[k].answer, i, timeout, got);
      AnswerIsFollowed(pulls, k, pulls[k].answer, i, closing, timeout, got);
      PullIsFollowed(Whole(Play(pulls, k, i, timeout, p), i, closing), pulls, k, i, closing, timeout, p, start);
    } else {
      ReadingOneMore(p.acts, Pulled(i, p.now), i, start);
      GotGoesOn(pulls, k, pulls[k].answer, i, closing, timeout, got, start, n);
    }
  }

  /** The pull is cancelled and lets that through. */
  lemma ThroughGoesOn(pulls: seq<Pull>, k: nat, i: nat, closing: Closing, timeout: nat, p: Played, start: int, n: nat)
    requires k < |pulls| && Before(p, k, i, timeout, start) && p.now < p.deadline < p.now + pulls[k].takes
    requires pulls[k].cancelled.LetsThrough?
    requires |p.acts| <= n < |Whole(Play(pulls, k, i, timeout, p), i, closing)|
    ensures StreamGoesOn(Whole(Play(pulls, k, i, timeout, p), i, closing), n, pulls, closing, i, timeout, start)
  {
    var acts := Whole(Play(pulls, k, i, timeout, p), i, closing);
    var late := TimedOut(i, p.deadline + pulls[k].cancelled.delay);
    assert Play(pulls, k, i, timeout, p).acts == p.acts + [Pulled(i, p.now)] + [Overdue(i, k, p.deadline)] + [late];
    if n == |p.acts| {
      PullIsFollowed(acts, pulls, k, i, closing, timeout, p, start);
    }
  }

  lemma {:induction false} CancelGoesOn(
    pulls: seq<Pull>, k: nat, i: nat, closing: Closing, timeout: nat, p: Played, start: int, n: nat)
    requires k < |pulls| && Before(p, k, i, timeout, start) && p.now < p.deadline < p.now + pulls[k].takes
    requires |p.acts| <= n < |Whole(Play(pulls, k, i, timeout, p), i, closing)|
    ensures StreamGoesOn(Whole(Play(pulls, k, i, timeout, p), i, closing), n, pulls, closing, i, timeout, start)
    decreases |pulls| - k, 2
  {
    match pulls[k].cancelled
    case LetsThrough(_) => ThroughGoesOn(pulls, k, i, closing, timeout, p, start, n);
    case AnswersLate(delay, late) =>
      var acts := Whole(Play(pulls, k, i, timeout, p), i, closing);
      var pulled := p.acts + [Pulled(i, p.now)];
      var got := p.(acts := pulled + [Overdue(i, k, p.deadline)], now := p.deadline + delay);
      assert Play(pulls, k, i, timeout, p) == Got(pulls, k, late, i, timeout, got);
      GotExtends(pulls, k, late, i, timeout, got);
      if n == |p.acts| {
        AnswerIsFollowed(pulls, k, late, i, closing, timeout, got);
        PullIsFollowed(acts, pulls, k, i, closing, timeout, p, start);
      } else {
        ReadingOneMore(p.acts, Pulled(i, p.now), i, start);
        ReadingOneMore(pulled, Overdue(i, k, p.deadline), i, start);
        if n > |p.acts| + 1 {
          GotGoesOn(pulls, k, late, i, closing, timeout, got, start, n);
        } else {
          assert acts[n] == got.acts[n];
        }
      }
  }

  lemma {:induction false} GotGoesOn(
    pulls: seq<Pull>, k: nat, answer: Answer, i: nat, closing: Closing, timeout: nat, p: Played, start: int, n: nat)
    requires k < |pulls| && Before(p, k + 1, i, timeout, start)
    requires |p.acts| <= n < |Whole(Got(pulls, k, answer, i, timeout, p), i, closing)|
    ensures StreamGoesOn(Whole(Got(pulls, k, answer, i, timeout, p), i, closing), n, pulls, closing, i, timeout, start)
    decreases |pulls| - k, 1
  {
    if answer.Chunk? && answer.text == "" {
      PlayGoesOn(pulls, k + 1, i, closing, timeout, p, start, n);
    } else if answer.Chunk? {
      DeliveryGoesOn(pulls, k, answer, i, closing, timeout, p, start, n);
    }
  }

  lemma {:induction false} DeliveryGoesOn(
    pulls: seq<Pull>, k: nat, answer: Answer, i: nat, closing: Closing, timeout: nat, p: Played, start: int, n: nat)
    requires k < |pulls| && Before(p, k + 1, i, timeout, start) && answer.Chunk? && answer.text != ""
    requires |p.acts| <= n < |Whole(Got(pulls, k, answer, i, timeout, p), i, closing)|
    ensures StreamGoesOn(Whole(Got(pulls, k, answer, i, timeout, p), i, closing), n, pulls, closing, i, timeout, start)
    decreases |pulls| - k, 0
  {
    if answer.consumer.Resumes? {
      var emitted := p.(acts := p.acts + [Emitted(answer.text)], committed := true);
      var resumed := Resume(emitted, p.now + answer.consumer.pause, timeout);
      assert Got(pulls, k, answer, i, timeout, p) == Play(pulls, k + 1, i, timeout, resumed);
      if n >= |resumed.acts| {
        ReadingOneMore(p.acts, Emitted(answer.text), i, start);
        ReadingOneMore(emitted.acts, Resumed(resumed.now), i, start);
        PlayGoesOn(pulls, k + 1, i, closing, timeout, resumed, start, n);
      } else {
        PlayExtends(pulls, k + 1, i, timeout, resumed);
        assert Whole(Got(pulls, k, answer, i, timeout, p), i, closing)[n] == resumed.acts[n];
      }
    }
  }

  // ---- The whole body ----

  /** Nothing was pulled of stream `i` or of a later one, and the deadline is the one since the last
      progress; the clock stands where the last stream was closed. */
  ghost predicate AtRest(p: Played, i: nat, timeout: nat, start: int) {
    && (forall j: nat :: j >= i ==> PullsOf(p.acts, j) == 0)
    && p.deadline == LastProgress(p.acts, start) + timeout
    && p.now == LastClose(p.acts, start)
  }

  /** A stream pulls only itself, and its deadline is the one since the last progress throughout. */
  ghost predicate Kept(before: seq<Act>, q: Played, i: nat, timeout: nat, start: int) {
    && (forall j: nat :: j != i ==> PullsOf(q.acts, j) == PullsOf(before, j))
    && q.deadline == LastProgress(q.acts, start) + timeout
  }

  lemma KeptOneMore(acts: seq<Act>, act: Act, q: Played, i: nat, timeout: nat, start: int)
    requires Kept(acts + [act], q, i, timeout, start) && !(act.Pulled? && act.index != i)
    ensures Kept(acts, q, i, timeout, start)
  {
    forall j: nat | j != i
      ensures PullsOf(q.acts, j) == PullsOf(acts, j)
    {
      ReadingOneMore(acts, act, j, start);
    }
  }

  lemma {:induction false} PlayKeeps(pulls: seq<Pull>, k: nat, i: nat, timeout: nat, p: Played, start: int)
    requires k <= |pulls| && p.deadline == LastProgress(p.acts, start) + timeout
    ensures Kept(p.acts, Play(pulls, k, i, timeout, p), i, timeout, start)
    decreases |pulls| - k, 2
  {
    var q := Play(pulls, k, i, timeout, p);
    if p.now >= p.deadline {
      ReadingOneMore(p.acts, TimedOut(i, p.now), i, start);
      KeptOneMore(p.acts, TimedOut(i, p.now), q, i, timeout, start);
    } else {
      var pulled := p.(acts := p.acts + [Pulled(i, p.now)]);
      ReadingOneMore(p.acts, Pulled(i, p.now), i, start);
      if k < |pulls| {
        if p.now + pulls[k].takes <= p.deadline {
          GotKeeps(pulls, k, pulls[k].answer, i, timeout, pulled.(now := p.now + pulls[k].takes), start);
        } else {
          CancelKeeps(pulls, k, i, timeout, pulled, start);
        }
      }
      KeptOneMore(p.acts, Pulled(i, p.now), q, i, timeout, start);
    }
  }

  lemma {:induction false} CancelKeeps(pulls: seq<Pull>, k: nat, i: nat, timeout: nat, p: Played, start: int)
    requires k < |pulls| && p.deadline == LastProgress(p.acts, start) + timeout
    ensures Kept(p.acts, AfterCancel(pulls, k, i, timeout, p), i, timeout, start)
    decreases |pulls| - k, 1, 1
  {
    var q, cancelled := AfterCancel(pulls, k, i, timeout, p), Cancel(p, i, k);
    ReadingOneMore(p.acts, Overdue(i, k, p.deadline), i, start);
    match pulls[k].cancelled {
      case LetsThrough(delay) =>
        ReadingOneMore(cancelled.acts, TimedOut(i, cancelled.now + delay), i, start);
        KeptOneMore(cancelled.acts, TimedOut(i, cancelled.now + delay), q, i, timeout, start);
      case AnswersLate(delay, late) => GotKeeps(pulls, k, late, i, timeout, cancelled.(now := cancelled.now + delay), start);
    }
    KeptOneMore(p.acts, Overdue(i, k, p.deadline), q, i, timeout, start);
  }

  lemma {:induction false} GotKeeps(
    pulls: seq<Pull>, k: nat, answer: Answer, i: nat, timeout: nat, p: Played, start: int)
    requires k < |pulls| && p.deadline == LastProgress(p.acts, start) + timeout
    ensures Kept(p.acts, Got(pulls, k, answer, i, timeout, p), i, timeout, start)
    decreases |pulls| - k, 1, 0
  {
    if answer.Chunk? && answer.text == "" {
      PlayKeeps(pulls, k + 1, i, timeout, p, start);
    } else if answer.Chunk? {
      DeliveryKeeps(pulls, k, answer.text, answer.consumer, i, timeout, p, start);
    }
  }

  lemma {:induction false} DeliveryKeeps(
    pulls: seq<Pull>, k: nat, text: string, consumer: Consumer, i: nat, timeout: nat, p: Played, start: int)
    requires k < |pulls| && p.deadline == LastProgress(p.acts, start) + timeout
    ensures Kept(p.acts, Emit(pulls, k, text, consumer, i, timeout, p), i, timeout, start)
    decreases |pulls| - k, 0, 0
  {
    var q := Emit(pulls, k, text, consumer, i, timeout, p);
    var emitted := p.acts + [Emitted(text)];
    ReadingOneMore(p.acts, Emitted(text), i, start);
    if consumer.Resumes? {
      var at := p.now + consumer.pause;
      var resumed := Resume(p.(acts := emitted, committed := true), at, timeout);
      assert q == Play(pulls, k + 1, i, timeout, resumed) && resumed.acts == emitted + [Resumed(at)];
      ReadingOneMore(emitted, Resumed(at), i, start);
      PlayKeeps(pulls, k + 1, i, timeout, resumed, start);
      KeptOneMore(emitted, Resumed(at), q, i, timeout, start);
    }
    KeptOneMore(p.acts, Emitted(text), q, i, timeout, start);
  }

  lemma OpenedRests(pulls: seq<Pull>, closing: Closing, i: nat, timeout: nat, p: Played, start: int)
    requires AtRest(p, i, timeout, start)
    ensures AtRest(Close(Play(pulls, 0, i, timeout, Begun(p, i)), i, closing), i + 1, timeout, start)
  {
    var begun := Begun(p, i);
    var played := Play(pulls, 0, i, timeout, begun);
    var closed := Closed(i, played.now + closing.takes);
    ReadingOneMore(p.acts, Opened(i), i, start);
    PlayKeeps(pulls, 0, i, timeout, begun, start);
    ReadingOneMore(played.acts, closed, i, start);
    forall j: nat | j >= i + 1
      ensures PullsOf(played.acts + [closed], j) == 0
    {
      ReadingOneMore(p.acts, Opened(i), j, start);
      ReadingOneMore(played.acts, closed, j, start);
    }
  }

  /** What follows an act is not changed by what comes after. */
  lemma GoesOnInLonger(acts: seq<Act>, longer: seq<Act>, n: nat, candidates: seq<Candidate>, timeout: nat, start: int)
    requires n < |acts| && acts <= longer && ActGoesOn(acts, n, candidates, timeout, start)
    ensures ActGoesOn(longer, n, candidates, timeout, start)
  {
    assert longer[n] == acts[n];
    assert longer[..n] == acts[..n];
    assert forall m: nat, act :: NextIs(acts, m, act) ==> NextIs(longer, m, act);
  }

  lemma OpenedGoesOn(candidates: seq<Candidate>, i: nat, timeout: nat, p: Played, start: int, n: nat)
    requires i < |candidates| && candidates[i].Opens? && AtRest(p, i, timeout, start)
    requires |p.acts| <= n < |Attempt(candidates[i], i, timeout, p).acts|
    ensures ActGoesOn(Attempt(candidates[i], i, timeout, p).acts, n, candidates, timeout, start)
  {
    var c := candidates[i];
    var begun := Begun(p, i);
    var acts := Attempt(c, i, timeout, p).acts;
    PlayExtends(c.pulls, 0, i, timeout, begun);
    assert acts == Whole(Play(c.pulls, 0, i, timeout, begun), i, c.closing);
    if n == |p.acts| {
      assert acts[n] == begun.acts[n];
      assert acts[..n] == p.acts;
    } else {
      ReadingOneMore(p.acts, Opened(i), i, start);
      PlayGoesOn(c.pulls, 0, i, c.closing, timeout, begun, start, n);
    }
  }

  lemma {:induction false} BodyGoesOn(candidates: seq<Candidate>, index: nat, timeout: nat, p: Played, start: int, n: nat)
    requires index < |candidates| && AtRest(p, index, timeout, start)
    requires |p.acts| <= n < |Body(candidates, index, timeout, p).acts|
    ensures ActGoesOn(Body(candidates, index, timeout, p).acts, n, candidates, timeout, start)
    decreases |candidates| - index
  {
    var c := candidates[index];
    var played := Attempt(c, index, timeout, p);
    if Advances(c, played, index + 1 == |candidates|) {
      if c.Opens? {
        OpenedRests(c.pulls, c.closing, index, timeout, p, start);
      }
      if n >= |played.acts| {
        BodyGoesOn(candidates, index + 1, timeout, played, start, n);
      } else {
        OpenedGoesOn(candidates, index, timeout, p, start, n);
        BodyExtends(candidates, index + 1, timeout, played);
        GoesOnInLonger(played.acts, Body(candidates, index + 1, timeout, played).acts, n, candidates, timeout, start);
      }
    } else {
      OpenedGoesOn(candidates, index, timeout, p, start, n);
    }
  }

  lemma {:induction false} BodyExtends(candidates: seq<Candidate>, index: nat, timeout: nat, p: Played)
    requires index < |candidates|
    ensures p.acts <= Body(candidates, index, timeout, p).acts
    decreases |candidates| - index
  {
    var c := candidates[index];
    var played := Attempt(c, index, timeout, p);
    if c.Opens? {
      PlayExtends(c.pulls, 0, index, timeout, Begun(p, index));
    }
    if Advances(c, played, index + 1 == |candidates|) {
      BodyExtends(candidates, index + 1, timeout, played);
    }
  }

  /** Every act of every body is followed by what its stream's script says, at the time it says: in
      particular a pull is cancelled if and only if it would answer after the deadline, time passes for
      pulls, pauses, delays and closes alike, and the first pull of a fallback comes when the stream before
      it is closed. */
  lemma EveryActGoesOn(candidates: seq<Candidate>, timeout: nat, start: int, n: nat)
    requires candidates != [] && n < |BodyActs(candidates, timeout, start)|
    ensures ActGoesOn(BodyActs(candidates, timeout, start), n, candidates, timeout, start)
  {
    BodyGoesOn(candidates, 0, timeout, Begin(start, timeout), start, n);
  }
}
