/** Each step keeps the counting half of `Inv`, and with it every reachable state satisfies `Inv`. */
module AckCounting {
  import opened Prelude
  import opened PendingAcks
  import opened AckProtocol
  import opened AckShape

  lemma DeliverKeepsFlight(sends: map<nat, Send>, ws: set<nat>, result: Channel, k: nat, key: string)
    ensures InFlight(Deliver(sends, ws, result), k, key) == InFlight(sends, k, key)
    ensures Won(Deliver(sends, ws, result), k, key) <= Won(sends, k, key) + if result == Sent(true) then ws else {}
  {
  }

  /** One send changing phase moves in or out of the two sets, and nothing else does. */
  lemma UpdateFlight(sends: map<nat, Send>, s: nat, send: Send, k: nat, key: string)
    ensures InFlight(sends[s := send], k, key) - {s} == InFlight(sends, k, key) - {s}
    ensures Won(sends[s := send], k, key) - {s} == Won(sends, k, key) - {s}
    ensures Won(sends[s := send], k, key) <= InFlight(sends[s := send], k, key)
  {
  }

  lemma Without(a: set<nat>, b: set<nat>, s: nat)
    requires a - {s} == b - {s}
    ensures s in a && s !in b ==> |a| == |b| + 1
    ensures (s in a <==> s in b) ==> a == b
  {
    if s in a && s !in b {
      assert b == b - {s} && a == (a - {s}) + {s};
    } else if s in a && s in b {
      assert a == (a - {s}) + {s} && b == (b - {s}) + {s};
    } else if s !in a && s !in b {
      assert a == a - {s} && b == b - {s};
    }
  }

  lemma Smaller(a: set<nat>, b: set<nat>)
    requires a <= b
    ensures |a| <= |b|
  {
    assert b == a + (b - a);
  }

  lemma BeginCounts(st: State, s: nat, key: string, k: nat, other: string)
    requires Shape(st) && Counted(st, k, other)
    ensures Counted(ApplyBegin(st, s, key), k, other)
  {
    var st' := ApplyBegin(st, s, key);
    if st' != st {
      UpdateFlight(st.sends, s, st'.sends[s], k, other);
      Without(InFlight(st'.sends, k, other), InFlight(st.sends, k, other), s);
      Without(Won(st'.sends, k, other), Won(st.sends, k, other), s);
      if st.current.Some? {
        PutSlot(st, st.current.value, key, SlotQueue(st, st.current.value, key) + [s], st');
      }
    }
  }

  lemma EmitOkCounts(st: State, s: nat, k: nat, other: string)
    requires Shape(st) && Counted(st, k, other)
    ensures Counted(ApplyEmitOk(st, s), k, other)
  {
    var st' := ApplyEmitOk(st, s);
    if st' != st {
      assert InFlight(st'.sends, k, other) == InFlight(st.sends, k, other);
      assert Won(st'.sends, k, other) == Won(st.sends, k, other);
    }
  }

  lemma EmitFailCounts(st: State, s: nat, k: nat, other: string)
    requires Shape(st) && Counted(st, k, other)
    ensures Counted(ApplyEmitFail(st, s), k, other)
  {
    var st' := ApplyEmitFail(st, s);
    if st' == st { return; }
    FailedEmitRemovesItselfOrNothing(st, s);
    assert st'.sends == st.sends[s := st'.sends[s]];
    UpdateFlight(st.sends, s, st'.sends[s], k, other);
    Without(InFlight(st.sends, k, other), InFlight(st'.sends, k, other), s);
    Without(Won(st.sends, k, other), Won(st'.sends, k, other), s);
    Smaller(Won(st'.sends, k, other), InFlight(st'.sends, k, other));
  }

  lemma AckCounts(st: State, k': nat, key: string, ok: bool, k: nat, other: string)
    requires Shape(st) && Counted(st, k, other)
    ensures Counted(ApplyAck(st, k', key, ok), k, other)
  {
    var queue := SlotQueue(st, k', key);
    if queue == [] { return; }
    var st' := ApplyAck(st, k', key, ok);
    PutSlot(st, k', key, queue[1..], st');
    DeliverKeepsFlight(st.sends, {queue[0]}, Sent(ok), k, other);
    if k' == k && key == other {
      Smaller(Won(st'.sends, k, other), Won(st.sends, k, other) + {queue[0]});
    } else {
      assert queue[0] in queue;
      assert queue[0] !in Won(st'.sends, k, other);
      assert Won(st'.sends, k, other) <= Won(st.sends, k, other);
      Smaller(Won(st'.sends, k, other), Won(st.sends, k, other));
    }
  }

  lemma WakeCounts(st: State, s: nat, k: nat, other: string)
    requires Shape(st) && Counted(st, k, other)
    ensures Counted(ApplyWake(st, s), k, other)
  {
    var st' := ApplyWake(st, s);
    if st' == st { return; }
    assert forall j, o :: SlotQueue(st', j, o) == SlotQueue(st, j, o);
    UpdateFlight(st.sends, s, st'.sends[s], k, other);
    Without(InFlight(st.sends, k, other), InFlight(st'.sends, k, other), s);
    Without(Won(st.sends, k, other), Won(st'.sends, k, other), s);
  }

  lemma CleanupCounts(st: State, s: nat, k: nat, other: string)
    requires Shape(st) && st.current == Some(k) && Counted(st, k, other)
    ensures Counted(ApplyCleanup(st, s), k, other)
  {
    var st' := ApplyCleanup(st, s);
    if st' == st { return; }
    CleanupEvictsOldest(st, s);
    var queue := CleanupQueue(st, s);
    var evicted := if queue == [] then {} else {queue[0]};
    var mid := Deliver(st.sends, evicted, Closed);
    DeliverKeepsFlight(st.sends, evicted, Closed, k, other);
    UpdateFlight(mid, s, st'.sends[s], k, other);
    Without(InFlight(mid, k, other), InFlight(st'.sends, k, other), s);
    Without(Won(mid, k, other), Won(st'.sends, k, other), s);
    Smaller(Won(mid, k, other), Won(st.sends, k, other));
    Smaller(Won(st'.sends, k, other), InFlight(st'.sends, k, other));
  }

  lemma StepKeepsInv(st: State, e: Event)
    requires Inv(st)
    ensures Inv(Apply(st, e))
  {
    var st' := Apply(st, e);
    match e {
      case Begin(s, key) => BeginKeepsShape(st, s, key);
      case EmitOk(s) => EmitOkKeepsShape(st, s);
      case EmitFail(s) => EmitFailKeepsShape(st, s);
      case Ack(k, key, ok) => AckKeepsShape(st, k, key, ok);
      case Wake(s) => WakeKeepsShape(st, s);
      case Cleanup(s) => CleanupKeepsShape(st, s);
      case Disconnect => DisconnectKeepsShape(st);
      case Swap(k) => SwapKeepsShape(st, k);
      case DropSocket(k) => DropSocketKeepsShape(st, k);
    }
    forall other | st'.current.Some? ensures Counted(st', st'.current.value, other) {
      StepCounts(st, e, st'.current.value, other);
    }
  }

  lemma StepCounts(st: State, e: Event, k: nat, other: string)
    requires Inv(st) && Apply(st, e).current == Some(k)
    ensures Counted(Apply(st, e), k, other)
  {
    match e {
      case Begin(s, key) => BeginCounts(st, s, key, k, other);
      case EmitOk(s) => EmitOkCounts(st, s, k, other);
      case EmitFail(s) => EmitFailCounts(st, s, k, other);
      case Ack(j, key, ok) => AckCounts(st, j, key, ok, k, other);
      case Wake(s) => WakeCounts(st, s, k, other);
      case Cleanup(s) => CleanupCounts(st, s, k, other);
      case Disconnect =>
      case Swap(j) =>
        if Apply(st, e) != st {
          assert InFlight(st.sends, k, other) == {};
          assert Won(st.sends, k, other) == {};
        }
      case DropSocket(j) =>
        if Apply(st, e) != st {
          assert Counted(st, k, other);
          WaitersOfSocket(st, j);
          ClearSlots(st, j, Apply(st, e));
          DeliverKeepsFlight(st.sends, AllWaiters(st.pending[j]), Closed, k, other);
          Smaller(Won(Apply(st, e).sends, k, other), Won(st.sends, k, other));
        }
    }
  }

  lemma {:induction false} RunKeepsInv(events: seq<Event>)
    ensures Inv(Run(events))
  {
    if events == [] {
      forall k, key ensures InFlight(START.sends, k, key) == {} {
      }
    } else {
      RunKeepsInv(events[..|events| - 1]);
      StepKeepsInv(Run(events[..|events| - 1]), events[|events| - 1]);
    }
  }
}
