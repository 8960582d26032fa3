/** The strict sliding-window limiter of core/rate_limit.py.

    One atomic section of `_acquire` (the body under the lock) is one step. A run is any sequence of
    sections by any number of concurrent acquirers, so the run's state keeps, beside the deque, the
    whole history of recorded acquisitions. Time is an integer that never runs backwards. */
module SlidingWindow {
  import opened Options

  datatype Limits = Limits(rateLimit: nat, rateWindow: nat)

  datatype Decision = Recorded | Rejected | MustWait(seconds: nat)

  /** What one section reads: the clock twice, and whether the caller's condition still holds. */
  datatype Reading = Reading(now: int, stamp: int, allowed: bool)

  /** Every acquisition ever recorded, oldest first. The deque is what is left of it from `head` on;
      `cutoff` is the last cutoff any section computed. */
  datatype Window = Window(history: seq<int>, head: nat, cutoff: int, clock: int)

  ghost predicate ValidLimits(limits: Limits) {
    limits.rateLimit > 0 && limits.rateWindow > 0
  }

  predicate HeadInRange(w: Window) {
    w.head <= |w.history|
  }

  function Deque(w: Window): seq<int>
    requires HeadInRange(w)
  {
    w.history[w.head..]
  }

  /** The first place from `i` on whose time is later than the cutoff: where popping stops. */
  function FirstRecent(times: seq<int>, cutoff: int, i: nat): (n: nat)
    requires i <= |times|
    ensures i <= n <= |times|
    ensures n > i ==> times[n - 1] <= cutoff
    ensures n < |times| ==> times[n] > cutoff
    decreases |times| - i
  {
    if i < |times| && times[i] <= cutoff then FirstRecent(times, cutoff, i + 1) else i
  }

  function Cutoff(limits: Limits, reading: Reading): int {
    reading.now - limits.rateWindow
  }

  function NextHead(limits: Limits, w: Window, reading: Reading): (n: nat)
    requires HeadInRange(w)
    ensures w.head <= n <= |w.history|
  {
    FirstRecent(w.history, Cutoff(limits, reading), w.head)
  }

  function Decide(limits: Limits, w: Window, reading: Reading): Decision
    requires HeadInRange(w)
  {
    var head := NextHead(limits, w, reading);
    if |w.history| - head < limits.rateLimit then
      if reading.allowed then Recorded else Rejected
    else if head == |w.history| then MustWait(0)
    else MustWait(Max(0, w.history[head] + limits.rateWindow - reading.now))
  }

  function Section(limits: Limits, w: Window, reading: Reading): Window
    requires HeadInRange(w)
  {
    Window(
      if Decide(limits, w, reading).Recorded? then w.history + [reading.stamp] else w.history,
      NextHead(limits, w, reading),
      Cutoff(limits, reading),
      reading.stamp)
  }

  // ---- Runs ----

  function Start(limits: Limits, clock: int): Window {
    Window([], 0, clock - limits.rateWindow, clock)
  }

  ghost predicate Monotone(clock: int, readings: seq<Reading>)
    decreases |readings|
  {
    readings == [] ||
    (clock <= readings[0].now <= readings[0].stamp && Monotone(readings[0].stamp, readings[1..]))
  }

  function Run(limits: Limits, w: Window, readings: seq<Reading>): (end: Window)
    requires HeadInRange(w)
    ensures HeadInRange(end)
    decreases |readings|
  {
    if readings == [] then w else Run(limits, Section(limits, w, readings[0]), readings[1..])
  }

  ghost predicate Sorted(times: seq<int>) {
    forall i, j :: 0 <= i < j < |times| ==> times[i] <= times[j]
  }

  /** The deque is exactly the part of the history later than the cutoff. */
  ghost predicate DequeIsRecentHistory(w: Window) {
    && HeadInRange(w)
    && (forall i :: 0 <= i < w.head ==> w.history[i] <= w.cutoff)
    && (forall i :: w.head <= i < |w.history| ==> w.history[i] > w.cutoff)
  }

  /** Acquisitions `rateLimit` places apart are at least a whole window apart in time. */
  ghost predicate Spaced(limits: Limits, history: seq<int>) {
    forall i, j :: 0 <= i < j < |history| && j - i >= limits.rateLimit
      ==> history[j] - history[i] >= limits.rateWindow
  }

  ghost predicate Inv(limits: Limits, w: Window) {
    && Sorted(w.history)
    && (forall i :: 0 <= i < |w.history| ==> w.history[i] <= w.clock)
    && DequeIsRecentHistory(w)
    && |w.history| - w.head <= limits.rateLimit
    && w.cutoff + limits.rateWindow <= w.clock
    && Spaced(limits, w.history)
  }

  lemma PruneIsRecent(w: Window, cutoff: int)
    requires Sorted(w.history) && DequeIsRecentHistory(w) && w.cutoff <= cutoff
    ensures DequeIsRecentHistory(w.(head := FirstRecent(w.history, cutoff, w.head), cutoff := cutoff))
  {
  }

  lemma AppendKeepsSpacing(limits: Limits, history: seq<int>, head: nat, cutoff: int, stamp: int)
    requires Sorted(history) && Spaced(limits, history)
    requires forall i :: 0 <= i < |history| ==> history[i] <= stamp
    requires head <= |history| < head + limits.rateLimit
    requires forall i :: 0 <= i < head ==> history[i] <= cutoff
    requires cutoff + limits.rateWindow <= stamp
    ensures Sorted(history + [stamp]) && Spaced(limits, history + [stamp])
  {
  }

  /** Popping the old times and looking at the clock. */
  lemma PruneKeepsInv(limits: Limits, w: Window, reading: Reading)
    requires Inv(limits, w) && w.clock <= reading.now <= reading.stamp
    requires |w.history| - NextHead(limits, w, reading) <= limits.rateLimit
    ensures Inv(limits, Window(w.history, NextHead(limits, w, reading), Cutoff(limits, reading), reading.stamp))
  {
    PruneIsRecent(w, Cutoff(limits, reading));
  }

  lemma RecordKeepsInv(limits: Limits, w: Window)
    requires ValidLimits(limits) && Inv(limits, w) && |w.history| - w.head < limits.rateLimit
    ensures Inv(limits, w.(history := w.history + [w.clock]))
  {
    AppendKeepsSpacing(limits, w.history, w.head, w.cutoff, w.clock);
    RecentWithOneMore(w);
  }

  lemma RecentWithOneMore(w: Window)
    requires DequeIsRecentHistory(w) && w.cutoff < w.clock
    ensures DequeIsRecentHistory(w.(history := w.history + [w.clock]))
  {
  }

  lemma SectionKeepsInv(limits: Limits, w: Window, reading: Reading)
    requires ValidLimits(limits) && Inv(limits, w)
    requires w.clock <= reading.now <= reading.stamp
    ensures Inv(limits, Section(limits, w, reading))
  {
    PruneKeepsInv(limits, w, reading);
    if Decide(limits, w, reading).Recorded? {
      RecordKeepsInv(limits, Window(w.history, NextHead(limits, w, reading), Cutoff(limits, reading), reading.stamp));
    }
  }

  lemma {:induction false} RunKeepsInv(limits: Limits, w: Window, readings: seq<Reading>)
    requires ValidLimits(limits) && Inv(limits, w)
    requires Monotone(w.clock, readings)
    ensures Inv(limits, Run(limits, w, readings))
    decreases |readings|
  {
    if readings != [] {
      SectionKeepsInv(limits, w, readings[0]);
      RunKeepsInv(limits, Section(limits, w, readings[0]), readings[1..]);
    }
  }

  /** How many recorded acquisitions lie in the half-open interval [from, until). */
  function CountIn(history: seq<int>, from: int, until: int): nat {
    if history == [] then 0
    else
      (if from <= history[|history| - 1] < until then 1 else 0)
      + CountIn(history[..|history| - 1], from, until)
  }

  /** In a sorted history the acquisitions of an interval are consecutive. */
  lemma {:induction false} CountIsConsecutive(history: seq<int>, from: int, until: int) returns (first: nat)
    requires Sorted(history)
    ensures first + CountIn(history, from, until) <= |history|
    ensures forall i :: first <= i < first + CountIn(history, from, until) ==> from <= history[i] < until
    ensures CountIn(history, from, until) > 0 && history[|history| - 1] < until ==>
      first + CountIn(history, from, until) == |history|
    decreases |history|
  {
    if history == [] {
      first := 0;
    } else {
      var shorter := history[..|history| - 1];
      var last := history[|history| - 1];
      first := CountIsConsecutive(shorter, from, until);
      if from <= last < until {
        if CountIn(shorter, from, until) == 0 {
          first := |shorter|;
        }
      }
    }
  }

  lemma SpacedBoundsCount(limits: Limits, history: seq<int>, from: int)
    requires ValidLimits(limits) && Sorted(history) && Spaced(limits, history)
    ensures CountIn(history, from, from + limits.rateWindow) <= limits.rateLimit
  {
    var count := CountIn(history, from, from + limits.rateWindow);
    var first := CountIsConsecutive(history, from, from + limits.rateWindow);
    assert count > 0 ==> history[first + count - 1] - history[first] < limits.rateWindow;
  }

  // ---- What the limiter promises ----

  /** Over any run of concurrent acquirers, every half-open interval of one window's length holds at
      most `rateLimit` recorded acquisitions, and the deque is the history later than the cutoff. */
  lemma StrictWindow(limits: Limits, clock: int, readings: seq<Reading>, from: int)
    requires ValidLimits(limits) && Monotone(clock, readings)
    ensures
      var w := Run(limits, Start(limits, clock), readings);
      && CountIn(w.history, from, from + limits.rateWindow) <= limits.rateLimit
      && DequeIsRecentHistory(w)
  {
    RunKeepsInv(limits, Start(limits, clock), readings);
    SpacedBoundsCount(limits, Run(limits, Start(limits, clock), readings).history, from);
  }

  /** After any run, a caller is told to wait exactly when the last `rateWindow` already holds
      `rateLimit` acquisitions; it is never made to wait for room that exists, and waiting is never zero
      time. */
  lemma WaitsOnlyWhenFull(limits: Limits, clock: int, readings: seq<Reading>, reading: Reading)
    requires ValidLimits(limits) && Monotone(clock, readings)
    requires Run(limits, Start(limits, clock), readings).clock <= reading.now <= reading.stamp
    ensures
      var w := Run(limits, Start(limits, clock), readings);
      && (Decide(limits, w, reading).MustWait? <==>
          CountIn(w.history, reading.now - limits.rateWindow + 1, reading.now + 1) >= limits.rateLimit)
      && (Decide(limits, w, reading).MustWait? ==> Decide(limits, w, reading).seconds > 0)
  {
    RunKeepsInv(limits, Start(limits, clock), readings);
    FullMeansWait(limits, Run(limits, Start(limits, clock), readings), reading);
  }

  lemma FullMeansWait(limits: Limits, w: Window, reading: Reading)
    requires ValidLimits(limits) && Inv(limits, w)
    requires w.clock <= reading.now <= reading.stamp
    ensures Decide(limits, w, reading).MustWait? <==>
      CountIn(w.history, reading.now - limits.rateWindow + 1, reading.now + 1) >= limits.rateLimit
    ensures Decide(limits, w, reading).MustWait? ==> Decide(limits, w, reading).seconds > 0
  {
    PruneIsRecent(w, Cutoff(limits, reading));
    CountTail(w.history, NextHead(limits, w, reading), Cutoff(limits, reading) + 1, reading.now + 1);
  }

  /** The wait is exact: after any run, if nobody else comes in between, the window has room at a later
      moment if and only if the time the caller was told to wait has passed by then. */
  lemma WaitIsExact(limits: Limits, clock: int, readings: seq<Reading>, reading: Reading, later: int)
    requires ValidLimits(limits) && Monotone(clock, readings)
    requires Run(limits, Start(limits, clock), readings).clock <= reading.now <= reading.stamp && reading.now <= later
    requires Decide(limits, Run(limits, Start(limits, clock), readings), reading).MustWait?
    ensures
      var w := Run(limits, Start(limits, clock), readings);
      CountIn(w.history, later - limits.rateWindow + 1, later + 1) < limits.rateLimit <==>
      later >= reading.now + Decide(limits, w, reading).seconds
  {
    RunKeepsInv(limits, Start(limits, clock), readings);
    RoomAfterWait(limits, Run(limits, Start(limits, clock), readings), reading, later);
  }

  lemma RoomAfterWait(limits: Limits, w: Window, reading: Reading, later: int)
    requires ValidLimits(limits) && Inv(limits, w)
    requires w.clock <= reading.now <= reading.stamp && reading.now <= later
    requires Decide(limits, w, reading).MustWait?
    ensures
      CountIn(w.history, later - limits.rateWindow + 1, later + 1) < limits.rateLimit <==>
      later >= reading.now + Decide(limits, w, reading).seconds
  {
    PruneIsRecent(w, Cutoff(limits, reading));
    var head, older := NextHead(limits, w, reading), FirstRecent(w.history, later - limits.rateWindow, w.head);
    RecentCount(limits, w, later);
    HeadsCompare(w.history, head, older, later - limits.rateWindow, Cutoff(limits, reading));
  }

  lemma RecentCount(limits: Limits, w: Window, later: int)
    requires Inv(limits, w) && w.clock <= later && 0 < limits.rateWindow
    ensures
      CountIn(w.history, later - limits.rateWindow + 1, later + 1) ==
      |w.history| - FirstRecent(w.history, later - limits.rateWindow, w.head)
  {
    PruneIsRecent(w, later - limits.rateWindow);
    CountTail(w.history, FirstRecent(w.history, later - limits.rateWindow, w.head), later - limits.rateWindow + 1, later + 1);
  }

  /** A later cutoff pops more exactly if it reaches the first time that was left. */
  lemma HeadsCompare(history: seq<int>, head: nat, older: nat, cutoff: int, before: int)
    requires Sorted(history) && head < |history| && older <= |history| && before <= cutoff
    requires forall i :: 0 <= i < head ==> history[i] <= before
    requires older > 0 && older > head ==> history[older - 1] <= cutoff
    requires older < |history| ==> history[older] > cutoff
    ensures older > head <==> history[head] <= cutoff
    ensures older >= head
  {
    if older > head {
      assert history[head] <= history[older - 1];
    }
  }

  lemma {:induction false} CountTail(history: seq<int>, older: nat, from: int, until: int)
    requires older <= |history|
    requires forall i :: 0 <= i < older ==> history[i] < from
    requires forall i :: older <= i < |history| ==> from <= history[i] < until
    ensures CountIn(history, from, until) == |history| - older
    decreases |history|
  {
    if history != [] {
      if older == |history| {
        CountTail(history[..|history| - 1], older - 1, from, until);
      } else {
        CountTail(history[..|history| - 1], older, from, until);
      }
    }
  }

  /** After any run, an acquisition is recorded exactly when its condition held in that very section and
      the window had room; a rejected or waiting section leaves the history as it was. */
  lemma RecordsOnlyAllowed(limits: Limits, clock: int, readings: seq<Reading>, reading: Reading)
    requires ValidLimits(limits) && Monotone(clock, readings)
    requires Run(limits, Start(limits, clock), readings).clock <= reading.now <= reading.stamp
    ensures
      var w := Run(limits, Start(limits, clock), readings);
      var w' := Section(limits, w, reading);
      var room := CountIn(w.history, reading.now - limits.rateWindow + 1, reading.now + 1) < limits.rateLimit;
      w'.history == if reading.allowed && room then w.history + [reading.stamp] else w.history
  {
    RunKeepsInv(limits, Start(limits, clock), readings);
    FullMeansWait(limits, Run(limits, Start(limits, clock), readings), reading);
  }

  /** What one section does to the deque itself. */
  lemma SectionOnDeque(limits: Limits, w: Window, reading: Reading)
    requires ValidLimits(limits) && HeadInRange(w)
    ensures
      var kept := w.history[NextHead(limits, w, reading)..];
      && Deque(Section(limits, w, reading)) ==
           (if |kept| < limits.rateLimit && reading.allowed then kept + [reading.stamp] else kept)
      && Decide(limits, w, reading) ==
           if |kept| < limits.rateLimit then (if reading.allowed then Recorded else Rejected)
           else MustWait(Max(0, kept[0] + limits.rateWindow - reading.now))
  {
  }

  /** The limiter object. `window` is its history; each call moves it by one `Section`, so after any
      calls it is a `Run` and StrictWindow applies to it. */
  class StrictSlidingWindowLimiter {
    const limits: Limits
    var times: seq<int>
    ghost var window: Window

    ghost predicate Valid()
      reads this
    {
      && ValidLimits(limits)
      && HeadInRange(window)
      && times == Deque(window)
    }

    constructor (rateLimit: nat, rateWindow: nat, ghost start: int)
      requires rateLimit > 0 && rateWindow > 0
      ensures Valid() && limits == Limits(rateLimit, rateWindow) && window == Start(limits, start)
    {
      limits := Limits(rateLimit, rateWindow);
      times := [];
      window := Start(Limits(rateLimit, rateWindow), start);
    }

    /** The popping loop: drop every leading time at or before the cutoff. */
    method PopStale(cutoff: int, ghost history: seq<int>, ghost head: nat)
      requires head <= |history| && times == history[head..]
      modifies this`times
      ensures times == history[FirstRecent(history, cutoff, head)..]
    {
      ghost var popped: nat := head;
      while times != [] && times[0] <= cutoff
        invariant head <= popped <= |history| && times == history[popped..]
        invariant FirstRecent(history, cutoff, popped) == FirstRecent(history, cutoff, head)
        decreases |times|
      {
        times, popped := times[1..], popped + 1;
      }
    }

    /** One pass of `_acquire` under the lock. The caller sleeps and comes back on `MustWait`. */
    method AcquireSection(now: int, stamp: int, allowed: bool) returns (decision: Decision)
      requires Valid()
      modifies this
      ensures Valid()
      ensures decision == Decide(limits, old(window), Reading(now, stamp, allowed))
      ensures window == Section(limits, old(window), Reading(now, stamp, allowed))
    {
      SectionOnDeque(limits, window, Reading(now, stamp, allowed));
      PopStale(now - limits.rateWindow, window.history, window.head);
      window := Section(limits, window, Reading(now, stamp, allowed));
      if |times| < limits.rateLimit {
        if !allowed {
          return Rejected;
        }
        times := times + [stamp];
        return Recorded;
      }
      var oldest := times[0];
      decision := MustWait(Max(0, oldest + limits.rateWindow - now));
    }
  }
}
