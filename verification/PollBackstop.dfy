/** The HTTP poll that backs live push up, and when it stands down. */
module PollBackstop {
  import opened Prelude
  import opened DedupWindow

  const MAX_POLL_SKIPS: nat := 7

  datatype Gate = Gate(lastActivity: nat, skipped: nat)

  /** Stand down after an interval with pushes, unless too many intervals in a row were skipped already. */
  predicate StandsDown(gate: Gate, activity: nat) {
    activity != gate.lastActivity && gate.skipped < MAX_POLL_SKIPS
  }

  /**
   One interval of the task: the ids pushed since the previous check, and what reached the callback while a
   poll ran, if one did: the page's messages and `pushedMeanwhile` further pushes, in any order.
   */
  datatype Interval = Interval(pushed: seq<string>, polled: seq<string>, pushedMeanwhile: nat)

  /** `activity` counts pushes only; `trace` lists every id handed to the deduplicating callback. */
  datatype Progress = Progress(activity: nat, gate: Gate, trace: seq<string>)

  /** When the task starts: it has read the counter, and `early` was pushed since the callback was installed. */
  function Begin(early: seq<string>): Progress {
    Progress(|early|, Gate(|early|, 0), early)
  }

  function Advance(p: Progress, iv: Interval): Progress {
    var activity := p.activity + |iv.pushed|;
    if StandsDown(p.gate, activity) then
      Progress(activity, Gate(activity, p.gate.skipped + 1), p.trace + iv.pushed)
    else
      Progress(activity + iv.pushedMeanwhile, Gate(activity + iv.pushedMeanwhile, 0), p.trace + iv.pushed + iv.polled)
  }

  function After(early: seq<string>, intervals: seq<Interval>): Progress {
    if intervals == [] then Begin(early) else Advance(After(early, intervals[..|intervals| - 1]), intervals[|intervals| - 1])
  }

  /** Whether interval `i` of a run polls. */
  predicate Polls(early: seq<string>, intervals: seq<Interval>, i: nat)
    requires i < |intervals|
  {
    var p := After(early, intervals[..i]);
    !StandsDown(p.gate, p.activity + |intervals[i].pushed|)
  }

  class PollTask {
    var activity: nat
    var lastActivity: nat
    var skipped: nat
    var trace: seq<string>

    ghost function Now(): Progress
      reads this
    {
      Progress(activity, Gate(lastActivity, skipped), trace)
    }

    constructor (early: seq<string>)
      ensures Now() == Begin(early)
    {
      activity, lastActivity, skipped, trace := |early|, |early|, 0, early;
    }

    method PollShouldRun(current: nat) returns (run: bool)
      modifies this`lastActivity, this`skipped
      ensures run <==> !StandsDown(old(Now()).gate, current)
      ensures lastActivity == current && skipped == if run then 0 else old(skipped) + 1
    {
      if current != lastActivity && skipped < MAX_POLL_SKIPS {
        lastActivity := current;
        skipped := skipped + 1;
        return false;
      }
      lastActivity := current;
      skipped := 0;
      return true;
    }

    /** The task's loop, ending at the first interval that finds the room left. */
    method Loop(ghost early: seq<string>, intervals: seq<Interval>, joined: seq<bool>) returns (ran: nat)
      requires |joined| == |intervals| && Now() == Begin(early)
      modifies this
      ensures ran <= |intervals| && (forall i :: 0 <= i < ran ==> joined[i]) && (ran < |intervals| ==> !joined[ran])
      ensures Now() == After(early, intervals[..ran])
    {
      ran := 0;
      while ran < |intervals|
        invariant ran <= |intervals| && (forall i :: 0 <= i < ran ==> joined[i])
        invariant Now() == After(early, intervals[..ran])
      {
        if !joined[ran] { return; }
        var iv := intervals[ran];
        activity, trace := activity + |iv.pushed|, trace + iv.pushed;
        var run := PollShouldRun(activity);
        if run {
          activity, trace := activity + iv.pushedMeanwhile, trace + iv.polled;
          lastActivity := activity;
        }
        ran := ran + 1;
        assert intervals[..ran][..ran - 1] == intervals[..ran - 1];
      }
    }
  }

  lemma {:induction false} GateFollowsActivity(early: seq<string>, intervals: seq<Interval>)
    ensures After(early, intervals).gate.lastActivity == After(early, intervals).activity
    ensures After(early, intervals).gate.skipped <= MAX_POLL_SKIPS
  {
    if intervals != [] {
      GateFollowsActivity(early, intervals[..|intervals| - 1]);
    }
  }

  /** `skipped` counts the intervals skipped without a break up to now. */
  lemma {:induction false} SkippedCountsTheStreak(early: seq<string>, intervals: seq<Interval>, i: nat)
    requires |intervals| - After(early, intervals).gate.skipped <= i < |intervals|
    ensures !Polls(early, intervals, i)
  {
    var before := intervals[..|intervals| - 1];
    if i < |before| {
      SkippedCountsTheStreak(early, before, i);
      assert before[..i] == intervals[..i];
    }
  }

  lemma {:induction false} StreakIsCounted(early: seq<string>, intervals: seq<Interval>, run: nat)
    requires run <= |intervals|
    requires forall i :: |intervals| - run <= i < |intervals| ==> !Polls(early, intervals, i)
    ensures After(early, intervals).gate.skipped >= run
  {
    if run > 0 {
      var before := intervals[..|intervals| - 1];
      forall i | |before| - (run - 1) <= i < |before| ensures !Polls(early, before, i) {
        assert before[..i] == intervals[..i] && !Polls(early, intervals, i);
      }
      StreakIsCounted(early, before, run - 1);
      assert !Polls(early, intervals, |before|);
    }
  }

  /** An interval polls exactly when nothing was pushed in it or the seven before it were all skipped. */
  lemma PollsIff(early: seq<string>, intervals: seq<Interval>, i: nat)
    requires i < |intervals|
    ensures Polls(early, intervals, i) <==>
      intervals[i].pushed == [] || (i >= 7 && forall j :: i - 7 <= j < i ==> !Polls(early, intervals, j))
  {
    var prefix := intervals[..i];
    GateFollowsActivity(early, prefix);
    SkipsFitTheRun(early, prefix);
    forall j | 0 <= j < i ensures Polls(early, prefix, j) <==> Polls(early, intervals, j) {
      assert prefix[..j] == intervals[..j];
    }
    if After(early, prefix).gate.skipped == 7 {
      forall j | i - 7 <= j < i ensures !Polls(early, intervals, j) {
        SkippedCountsTheStreak(early, prefix, j);
      }
    } else if i >= 7 && forall j :: i - 7 <= j < i ==> !Polls(early, intervals, j) {
      StreakIsCounted(early, prefix, 7);
    }
  }

  lemma {:induction false} SkipsFitTheRun(early: seq<string>, intervals: seq<Interval>)
    ensures After(early, intervals).gate.skipped <= |intervals|
  {
    if intervals != [] {
      SkipsFitTheRun(early, intervals[..|intervals| - 1]);
    }
  }

  /** A quiet interval always polls, and any `MAX_POLL_SKIPS + 1` intervals in a row contain a poll. */
  lemma NeverSkipsForLong(early: seq<string>, intervals: seq<Interval>, i: nat)
    requires i < |intervals|
    ensures intervals[i].pushed == [] ==> Polls(early, intervals, i)
    ensures i + MAX_POLL_SKIPS + 1 <= |intervals| ==>
      exists j :: i <= j <= i + MAX_POLL_SKIPS && Polls(early, intervals, j)
  {
    GateFollowsActivity(early, intervals[..i]);
    if i + MAX_POLL_SKIPS + 1 <= |intervals| && forall j :: i <= j <= i + MAX_POLL_SKIPS ==> !Polls(early, intervals, j) {
      var prefix := intervals[..i + MAX_POLL_SKIPS + 1];
      forall j | i <= j < |prefix| ensures !Polls(early, prefix, j) {
        assert prefix[..j] == intervals[..j] && !Polls(early, intervals, j);
      }
      StreakIsCounted(early, prefix, MAX_POLL_SKIPS + 1);
      GateFollowsActivity(early, prefix);
    }
  }

  lemma {:induction false} TraceGrows(early: seq<string>, intervals: seq<Interval>, n: nat)
    requires n <= |intervals|
    ensures Elements(After(early, intervals[..n]).trace) <= Elements(After(early, intervals).trace)
  {
    if n < |intervals| {
      var before := intervals[..|intervals| - 1];
      TraceGrows(early, before, n);
      assert before[..n] == intervals[..n];
    } else {
      assert intervals[..n] == intervals;
    }
  }

  /** Interval `i` brings the id: it was pushed in it, or is on the page of the poll it made. */
  ghost predicate Brings(early: seq<string>, intervals: seq<Interval>, i: nat, id: string) {
    i < |intervals| && (id in intervals[i].pushed || (Polls(early, intervals, i) && id in intervals[i].polled))
  }

  lemma BringsSnoc(early: seq<string>, intervals: seq<Interval>, i: nat, id: string)
    requires i < |intervals| - 1
    ensures Brings(early, intervals, i, id) <==> Brings(early, intervals[..|intervals| - 1], i, id)
  {
    assert intervals[..|intervals| - 1][..i] == intervals[..i];
  }

  /** The callback was handed what was pushed, and the pages of the intervals that polled; nothing else. */
  lemma {:induction false} HandedOver(early: seq<string>, intervals: seq<Interval>, id: string)
    ensures id in After(early, intervals).trace <==> id in early || exists i: nat :: Brings(early, intervals, i, id)
  {
    if intervals != [] {
      var n := |intervals| - 1;
      HandedOver(early, intervals[..n], id);
      forall i: nat | i < n ensures Brings(early, intervals, i, id) <==> Brings(early, intervals[..n], i, id) {
        BringsSnoc(early, intervals, i, id);
      }
      assert id in After(early, intervals).trace <==> id in After(early, intervals[..n]).trace || Brings(early, intervals, n, id);
    }
  }

  lemma PollsHandOver(early: seq<string>, intervals: seq<Interval>, j: nat, id: string)
    requires j < |intervals| && Polls(early, intervals, j) && id in intervals[j].polled
    ensures id in After(early, intervals[..j + 1]).trace
  {
    assert intervals[..j + 1][..j] == intervals[..j];
  }

  /** An id that was handed over within a prefix of a run has fired by its end. */
  lemma HandedOverFires(early: seq<string>, intervals: seq<Interval>, n: nat, id: string)
    requires n <= |intervals| && id in After(early, intervals[..n]).trace
    ensures id in Fired(WINDOW, After(early, intervals).trace)
  {
    TraceGrows(early, intervals, n);
    FiredAreTheArrivals(WINDOW, After(early, intervals).trace);
    assert id in Elements(After(early, intervals[..n]).trace);
    assert id in Elements(Fired(WINDOW, After(early, intervals).trace));
  }

  /**
   Bounded catch-up. A message that every poll from interval `t` on returns has fired within
   `MAX_POLL_SKIPS + 1` intervals, from the poll or earlier from push.
   */
  lemma CatchUp(early: seq<string>, intervals: seq<Interval>, t: nat, id: string)
    requires t + MAX_POLL_SKIPS + 1 <= |intervals|
    requires forall j :: t <= j <= t + MAX_POLL_SKIPS && Polls(early, intervals, j) ==> id in intervals[j].polled
    ensures id in Fired(WINDOW, After(early, intervals[..t + MAX_POLL_SKIPS + 1]).trace)
  {
    NeverSkipsForLong(early, intervals, t);
    var j :| t <= j <= t + MAX_POLL_SKIPS && Polls(early, intervals, j);
    var prefix := intervals[..t + MAX_POLL_SKIPS + 1];
    PollsHandOver(early, intervals, j, id);
    assert prefix[..j + 1] == intervals[..j + 1];
    HandedOverFires(early, prefix, j + 1, id);
  }
}
