/** The bounded first-in-first-out id set behind every subscriber callback. */
module DedupWindow {
  import opened Prelude

  /** How many ids each subscriber callback remembers. */
  const WINDOW: nat := 10000

  /** The window after one arrival: a known id changes nothing, a new one may push the oldest out. */
  function Admit(window: seq<string>, capacity: nat, id: string): seq<string> {
    if id in window then window
    else (if |window| >= capacity && window != [] then window[1..] else window) + [id]
  }

  class BoundedIdSet {
    var ids: set<string>
    var order: seq<string>
    const capacity: nat

    ghost predicate Valid()
      reads this
    {
      capacity > 0 && |order| <= capacity && Distinct(order) && ids == Elements(order)
    }

    constructor (capacity: nat)
      requires capacity > 0
      ensures Valid() && this.capacity == capacity && order == []
    {
      this.capacity := capacity;
      ids, order := {}, [];
    }

    /** True exactly when the id was not in the window. */
    method Insert(id: string) returns (isNew: bool)
      requires Valid()
      modifies this
      ensures Valid()
      ensures isNew <==> id !in old(order)
      ensures order == Admit(old(order), capacity, id)
    {
      if id in ids { return false; }
      if |order| >= capacity {
        var oldest := order[0];
        order := order[1..];
        ids := ids - {oldest};
      }
      ids := ids + {id};
      order := order + [id];
      return true;
    }
  }

  /** The window after a whole trace of arrivals, whichever path each came by. */
  function Window(capacity: nat, trace: seq<string>): seq<string> {
    if trace == [] then []
    else Admit(Window(capacity, trace[..|trace| - 1]), capacity, trace[|trace| - 1])
  }

  /** The ids for which the subscriber's callback ran, in order. */
  function Fired(capacity: nat, trace: seq<string>): seq<string> {
    if trace == [] then []
    else
      var before, id := trace[..|trace| - 1], trace[|trace| - 1];
      Fired(capacity, before) + (if id in Window(capacity, before) then [] else [id])
  }

  function LastUpTo(s: seq<string>, n: nat): seq<string> {
    if |s| <= n then s else s[|s| - n..]
  }

  lemma {:induction false} WindowIsDistinct(capacity: nat, trace: seq<string>)
    requires capacity > 0
    ensures Distinct(Window(capacity, trace)) && |Window(capacity, trace)| <= capacity
  {
    if trace != [] {
      WindowIsDistinct(capacity, trace[..|trace| - 1]);
    }
  }

  lemma LastAfterAppend(s: seq<string>, n: nat, x: string)
    requires n > 0
    ensures LastUpTo(s + [x], n) == (if |LastUpTo(s, n)| >= n then LastUpTo(s, n)[1..] else LastUpTo(s, n)) + [x]
  {
  }

  /** The window is exactly the last `capacity` firings. */
  lemma {:induction false} WindowIsRecentFirings(capacity: nat, trace: seq<string>)
    requires capacity > 0
    ensures Window(capacity, trace) == LastUpTo(Fired(capacity, trace), capacity)
  {
    if trace != [] {
      var before, id := trace[..|trace| - 1], trace[|trace| - 1];
      WindowIsRecentFirings(capacity, before);
      if id !in Window(capacity, before) {
        LastAfterAppend(Fired(capacity, before), capacity, id);
      }
    }
  }

  /** An arrival fires exactly when its id is not among the last `capacity` firings. */
  lemma FiresIffNotRecent(capacity: nat, trace: seq<string>, id: string)
    requires capacity > 0
    ensures Fired(capacity, trace + [id])
         == if id in LastUpTo(Fired(capacity, trace), capacity) then Fired(capacity, trace) else Fired(capacity, trace) + [id]
  {
    WindowIsRecentFirings(capacity, trace);
    assert (trace + [id])[..|trace|] == trace;
  }

  lemma RecentContains(s: seq<string>, n: nat, i: nat)
    requires i < |s| && |s| - i <= n
    ensures s[i] in LastUpTo(s, n)
  {
    if |s| > n {
      assert s[i] == s[|s| - n..][i - (|s| - n)];
    }
  }

  /** Any `capacity + 1` consecutive firings carry different ids. */
  lemma {:induction false} ExactlyOnceWindow(capacity: nat, trace: seq<string>, i: nat, j: nat)
    requires capacity > 0 && i < j < |Fired(capacity, trace)| && j - i <= capacity
    ensures Fired(capacity, trace)[i] != Fired(capacity, trace)[j]
  {
    var before := trace[..|trace| - 1];
    if j < |Fired(capacity, before)| {
      ExactlyOnceWindow(capacity, before, i, j);
    } else {
      WindowIsRecentFirings(capacity, before);
      RecentContains(Fired(capacity, before), capacity, i);
    }
  }

  /** Nothing fires that did not arrive, and every id that arrived has fired. */
  lemma {:induction false} FiredAreTheArrivals(capacity: nat, trace: seq<string>)
    requires capacity > 0
    ensures Elements(Fired(capacity, trace)) == Elements(trace)
  {
    if trace != [] {
      var before, id := trace[..|trace| - 1], trace[|trace| - 1];
      FiredAreTheArrivals(capacity, before);
      WindowIsRecentFirings(capacity, before);
      assert id in Window(capacity, before) ==> id in Fired(capacity, before);
      assert trace == before + [id];
      assert Elements(trace) == Elements(before) + {id};
      assert Elements(Fired(capacity, before) + [id]) == Elements(Fired(capacity, before)) + {id};
    }
  }

  /** Every id's first arrival fires, at once. */
  lemma FirstArrivalFires(capacity: nat, trace: seq<string>, id: string)
    requires capacity > 0 && id !in trace
    ensures Fired(capacity, trace + [id]) == Fired(capacity, trace) + [id]
  {
    FiresIffNotRecent(capacity, trace, id);
    FiredAreTheArrivals(capacity, trace);
    assert id in Fired(capacity, trace) ==> id in Elements(trace);
  }

  /** What an unbounded set would let through: each id at its first occurrence. */
  function FirstOccurrences(trace: seq<string>): seq<string> {
    if trace == [] then []
    else
      var before, id := trace[..|trace| - 1], trace[|trace| - 1];
      FirstOccurrences(before) + (if id in before then [] else [id])
  }

  /** With at most `capacity` different ids the bound never shows. */
  lemma {:induction false} SmallTracesAreDeduplicated(capacity: nat, trace: seq<string>)
    requires capacity > 0 && |Elements(trace)| <= capacity
    ensures Fired(capacity, trace) == FirstOccurrences(trace)
    ensures Distinct(Fired(capacity, trace))
  {
    if trace != [] {
      var before, id := trace[..|trace| - 1], trace[|trace| - 1];
      assert trace == before + [id];
      assert Elements(trace) == Elements(before) + {id};
      assert Elements(trace) == Elements(before) + (Elements(trace) - Elements(before));
      SmallTracesAreDeduplicated(capacity, before);
      FiredAreTheArrivals(capacity, before);
      WindowIsRecentFirings(capacity, before);
      var fired := Fired(capacity, before);
      DistinctCount(fired);
      assert id in fired <==> id in before by {
        assert id in fired <==> id in Elements(fired);
      }
    }
  }

  lemma {:induction false} DistinctCount<T>(s: seq<T>)
    requires Distinct(s)
    ensures |Elements(s)| == |s|
  {
    if s != [] {
      var before, last := s[..|s| - 1], s[|s| - 1];
      DistinctCount(before);
      assert Elements(s) == Elements(before) + {last};
    }
  }

  /** The bound does show past it: one id too many in between and a duplicate fires again. */
  lemma BoundIsReal(capacity: nat, trace: seq<string>, id: string)
    requires capacity > 0 && id in trace && id !in LastUpTo(Fired(capacity, trace), capacity)
    ensures !Distinct(Fired(capacity, trace + [id]))
  {
    FiresIffNotRecent(capacity, trace, id);
    FiredAreTheArrivals(capacity, trace);
    assert id in Elements(Fired(capacity, trace));
    var i :| 0 <= i < |Fired(capacity, trace)| && Fired(capacity, trace)[i] == id;
    assert Fired(capacity, trace + [id])[i] == Fired(capacity, trace + [id])[|Fired(capacity, trace)|];
  }
}
