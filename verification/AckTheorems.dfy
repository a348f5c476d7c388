/** What callers of `send_live_message` get, over every interleaving. */
module AckTheorems {
  import opened Prelude
  import opened PendingAcks
  import opened AckProtocol
  import opened AckShape
  import opened AckCounting

  /**
   No waiter leaks. The current socket holds at most as many waiters for a room as there are calls still to
   return, minus those already won; once none are in flight the room's key is gone.
   */
  lemma NoWaiterLeaks(events: seq<Event>, k: nat, key: string)
    requires Run(events).current == Some(k)
    ensures
      var st := Run(events);
      && k in st.pending
      && |SlotQueue(st, k, key)| + |Won(st.sends, k, key)| <= |InFlight(st.sends, k, key)|
      && (InFlight(st.sends, k, key) == {} ==> key !in st.pending[k])
  {
    RunKeepsInv(events);
    assert Counted(Run(events), k, key);
  }

  /** Between steps no key of any registry maps to an empty queue, and every waiter sits in one place. */
  lemma RegistriesAreWellFormed(events: seq<Event>, k: nat)
    requires k in Run(events).pending
    ensures NoEmptyQueue(Run(events).pending[k]) && Unshared(Run(events).pending[k])
  {
    RunKeepsInv(events);
    ShapeSeparates(Run(events), k);
  }

  lemma ShapeSeparates(st: State, k: nat)
    requires Placed(st) && QueuesOk(st) && k in st.pending
    ensures Unshared(st.pending[k])
  {
    var queues := st.pending[k];
    forall key | key in queues ensures Distinct(queues[key]) {
      assert queues[key] == SlotQueue(st, k, key);
    }
    forall key, w | key in queues && w in queues[key] ensures w in st.sends && st.sends[w].key == key {
      assert w in SlotQueue(st, k, key);
    }
    forall a, b, w | a in queues && b in queues && w in queues[a] && w in queues[b] ensures a == b {
      assert st.sends[w].key == a;
    }
  }

  // ---- Acks consumed, and whom they resolved ----

  datatype Resolution = Resolution(waiter: Waiter, ok: bool)

  /** The acks of one socket and room that found a waiter, oldest first. */
  function Resolutions(events: seq<Event>, k: nat, key: string): seq<Resolution> {
    if events == [] then []
    else
      var before, e := events[..|events| - 1], events[|events| - 1];
      var queue := SlotQueue(Run(before), k, key);
      Resolutions(before, k, key) +
      (if e.Ack? && e.socket == k && e.key == key && queue != [] then [Resolution(queue[0], e.ok)] else [])
  }

  /** A queued waiter stays queued or leaves; only a new send's waiter can join. */
  lemma QueuesOnlyGainNewSends(st: State, e: Event, k: nat, key: string, w: Waiter)
    requires Inv(st) && w in SlotQueue(Apply(st, e), k, key)
    ensures w in SlotQueue(st, k, key) || (e.Begin? && e.s == w && w !in st.sends)
  {
    var st' := Apply(st, e);
    match e {
      case Begin(s, newKey) =>
        if st' != st && st.current.Some? {
          PutSlot(st, st.current.value, newKey, SlotQueue(st, st.current.value, newKey) + [s], st');
        }
      case EmitFail(s) => if st' != st { FailedEmitRemovesItselfOrNothing(st, s); }
      case Ack(j, ackKey, ok) =>
        if SlotQueue(st, j, ackKey) != [] { PutSlot(st, j, ackKey, SlotQueue(st, j, ackKey)[1..], st'); }
      case Cleanup(s) => if st' != st { CleanupEvictsOldest(st, s); }
      case Disconnect => if st' != st { ClearSlots(st, st.current.value, st'); }
      case Swap(j) => if st' != st { ClearSlots(st, j, st'); }
      case DropSocket(j) => if st' != st { ClearSlots(st, j, st'); }
      case _ =>
    }
  }

  /** Sends keep their identity; a channel that was used keeps its value; a call that returned is done. */
  ghost predicate Continues(before: Send, st: State, s: nat) {
    && s in st.sends && st.sends[s].key == before.key && st.sends[s].socket == before.socket
    && (before.channel != Pending ==> st.sends[s].channel == before.channel)
    && (before.phase in {Live, Fallback, Failed} ==> st.sends[s] == before)
  }

  lemma SendsPersist(st: State, e: Event, s: nat)
    requires Inv(st) && s in st.sends
    ensures Continues(st.sends[s], Apply(st, e), s)
  {
    match e {
      case Ack(k, key, ok) =>
        var queue := SlotQueue(st, k, key);
        if queue != [] { assert queue[0] in queue; }
      case EmitFail(t) => if Apply(st, e) != st { FailedEmitRemovesItselfOrNothing(st, t); }
      case Cleanup(t) =>
        if Apply(st, e) != st {
          CleanupEvictsOldest(st, t);
          var queue := CleanupQueue(st, t);
          if queue != [] { assert queue[0] in queue; }
        }
      case Disconnect => if Apply(st, e) != st { QueuedChannelsUntouched(st, st.current.value); }
      case DropSocket(k) => if Apply(st, e) != st { QueuedChannelsUntouched(st, k); }
      case _ =>
    }
  }

  lemma QueuedChannelsUntouched(st: State, k: nat)
    requires Placed(st) && k in st.pending
    ensures forall w :: w in AllWaiters(st.pending[k]) && w in st.sends ==> st.sends[w].channel == Pending
  {
    forall w | w in AllWaiters(st.pending[k]) && w in st.sends ensures st.sends[w].channel == Pending {
      var key :| key in st.pending[k] && w in st.pending[k][key];
      assert w in SlotQueue(st, k, key);
    }
  }

  /** Each waiter is resolved at most once, and never sits in a queue afterwards. */
  lemma {:induction false} ResolvedOnce(events: seq<Event>, k: nat, key: string)
    ensures forall i, j :: 0 <= i < j < |Resolutions(events, k, key)| ==>
      Resolutions(events, k, key)[i].waiter != Resolutions(events, k, key)[j].waiter
    ensures forall i :: 0 <= i < |Resolutions(events, k, key)| ==>
      var w := Resolutions(events, k, key)[i].waiter;
      w in Run(events).sends && w !in SlotQueue(Run(events), k, key)
  {
    if events == [] { return; }
    var before, e := events[..|events| - 1], events[|events| - 1];
    var st := Run(before);
    RunKeepsInv(before);
    ResolvedOnce(before, k, key);
    var all := Resolutions(events, k, key);
    var queue := SlotQueue(st, k, key);
    if e.Ack? && queue != [] && e.socket == k && e.key == key {
      PutSlot(st, k, key, queue[1..], Run(events));
      assert queue[0] in queue;
    }
    forall i | 0 <= i < |all| ensures all[i].waiter in Run(events).sends && all[i].waiter !in SlotQueue(Run(events), k, key) {
      var w := all[i].waiter;
      if i < |Resolutions(before, k, key)| {
        assert w == Resolutions(before, k, key)[i].waiter;
        SendsPersist(st, e, w);
        if w in SlotQueue(Run(events), k, key) {
          QueuesOnlyGainNewSends(st, e, k, key, w);
        }
      } else {
        assert w == queue[0];
      }
    }
  }

  // ---- `Live` is sound ----

  /** The calls on this socket and room that returned `Live`. */
  function LiveCalls(st: State, k: nat, key: string): set<nat> {
    set s | s in st.sends && st.sends[s].socket == Some(k) && st.sends[s].key == key && st.sends[s].phase == Live
  }

  function SuccessWaiters(log: seq<Resolution>): (ws: seq<Waiter>)
    ensures forall i :: 0 <= i < |log| && log[i].ok ==> log[i].waiter in ws
  {
    if log == [] then []
    else SuccessWaiters(log[..|log| - 1]) + if log[|log| - 1].ok then [log[|log| - 1].waiter] else []
  }

  /** A channel carries `true` only if an ack with that status, for that room on that socket, was spent on it. */
  lemma {:induction false} WonByAnAck(events: seq<Event>, s: nat)
    requires s in Run(events).sends && Run(events).sends[s].channel == Sent(true)
    ensures Run(events).sends[s].socket.Some?
    ensures Resolution(s, true) in Resolutions(events, Run(events).sends[s].socket.value, Run(events).sends[s].key)
  {
    if events == [] { return; }
    var before, e := events[..|events| - 1], events[|events| - 1];
    var st := Run(before);
    RunKeepsInv(before);
    if s !in st.sends {
      NewSendsArePending(st, e, s);
    } else if st.sends[s].channel == Sent(true) {
      SendsPersist(st, e, s);
      WonByAnAck(before, s);
      ResolutionsGrow(events, st.sends[s].socket.value, st.sends[s].key);
    } else {
      ChannelWonInStep(st, e, s);
      ResolutionsGrow(events, e.socket, e.key);
      SendsPersist(st, e, s);
    }
  }

  lemma NewSendsArePending(st: State, e: Event, s: nat)
    requires Inv(st) && s !in st.sends && s in Apply(st, e).sends
    ensures Apply(st, e).sends[s].channel == Pending
  {
    match e {
      case EmitFail(t) => if Apply(st, e) != st { FailedEmitRemovesItselfOrNothing(st, t); }
      case _ =>
    }
  }

  lemma ResolutionsGrow(events: seq<Event>, k: nat, key: string)
    requires events != []
    ensures forall r :: r in Resolutions(events[..|events| - 1], k, key) ==> r in Resolutions(events, k, key)
    ensures
      var e := events[|events| - 1];
      var queue := SlotQueue(Run(events[..|events| - 1]), k, key);
      e.Ack? && e.socket == k && e.key == key && queue != [] ==> Resolution(queue[0], e.ok) in Resolutions(events, k, key)
  {
  }

  lemma ChannelWonInStep(st: State, e: Event, s: nat)
    requires Inv(st) && s in st.sends && s in Apply(st, e).sends
    requires st.sends[s].channel != Sent(true) && Apply(st, e).sends[s].channel == Sent(true)
    ensures e.Ack? && e.ok && SlotQueue(st, e.socket, e.key) != [] && SlotQueue(st, e.socket, e.key)[0] == s
    ensures st.sends[s].socket == Some(e.socket) && st.sends[s].key == e.key
  {
    match e {
      case Ack(k, key, ok) =>
        var queue := SlotQueue(st, k, key);
        if queue != [] { assert queue[0] in queue; }
      case EmitFail(t) => if Apply(st, e) != st { FailedEmitRemovesItselfOrNothing(st, t); }
      case Cleanup(t) => if Apply(st, e) != st { CleanupEvictsOldest(st, t); }
      case _ =>
    }
  }

  /**
   `Live` is sound. Every call that returned `Live` was resolved by its own success ack, consumed for the
   same room on the same socket; acks resolve different waiters, so this is an injection and there are at
   most as many `Live` results as such acks, however badly timeouts have misaligned the queue.
   */
  lemma LiveIsSound(events: seq<Event>, k: nat, key: string)
    ensures forall s :: s in LiveCalls(Run(events), k, key) ==> Resolution(s, true) in Resolutions(events, k, key)
    ensures forall i, j :: 0 <= i < j < |Resolutions(events, k, key)| ==>
      Resolutions(events, k, key)[i].waiter != Resolutions(events, k, key)[j].waiter
    ensures |LiveCalls(Run(events), k, key)| <= |SuccessWaiters(Resolutions(events, k, key))|
  {
    ResolvedOnce(events, k, key);
    RunKeepsInv(events);
    var live := LiveCalls(Run(events), k, key);
    var ws := SuccessWaiters(Resolutions(events, k, key));
    forall s | s in live ensures Resolution(s, true) in Resolutions(events, k, key) && s in ws {
      WonByAnAck(events, s);
    }
    assert live <= Elements(ws);
    Smaller(live, Elements(ws));
    ElementsBound(ws);
  }

  lemma {:induction false} RunConcat(events: seq<Event>, more: seq<Event>, s: nat)
    requires s in Run(events).sends
    ensures Continues(Run(events).sends[s], Run(events + more), s)
  {
    if more == [] {
      assert events + more == events;
    } else {
      var prefix := more[..|more| - 1];
      RunConcat(events, prefix, s);
      var last := more[|more| - 1];
      assert events + more == (events + prefix) + [last];
      RunSnoc(events + prefix, last);
      RunKeepsInv(events + prefix);
      SendsPersist(Run(events + prefix), last, s);
    }
  }

  /** A call whose channel was refused or dropped never returns `Live`, whatever happens later. */
  lemma LostForGood(events: seq<Event>, more: seq<Event>, s: nat)
    requires s in Run(events).sends && Run(events).sends[s].channel !in {Pending, Sent(true)}
    ensures s in Run(events + more).sends && Run(events + more).sends[s].phase != Live
  {
    RunConcat(events, more, s);
    RunKeepsInv(events + more);
  }

  // ---- What a call returns ----

  /** A call moves only by its own emit, wake and cleanup; a wake returns `Live` exactly on a success ack. */
  lemma PhaseMoves(st: State, e: Event, s: nat)
    requires Inv(st) && s in st.sends
    ensures s in Apply(st, e).sends
    ensures Apply(st, e).sends[s].phase ==
      if e == EmitOk(s) && st.emitter == Some(s) then Waiting
      else if e == EmitFail(s) && st.emitter == Some(s) then Failed
      else if e == Wake(s) && st.sends[s].phase == Waiting then (if st.sends[s].channel == Sent(true) then Live else Cleaning)
      else if e == Cleanup(s) && st.sends[s].phase == Cleaning && st.emitter.None? then Fallback
      else st.sends[s].phase
    ensures st.emitter == Some(s) ==> st.sends[s].phase == Emitting
  {
    match e {
      case EmitFail(t) => if Apply(st, e) != st { FailedEmitRemovesItselfOrNothing(st, t); }
      case Cleanup(t) => if Apply(st, e) != st { CleanupEvictsOldest(st, t); }
      case _ =>
    }
  }

  lemma NewSendsAreUnderWay(st: State, e: Event, s: nat)
    requires Inv(st) && s !in st.sends && s in Apply(st, e).sends
    ensures Apply(st, e).sends[s].phase in {Emitting, Waiting}
  {
    match e {
      case EmitFail(t) => if Apply(st, e) != st { FailedEmitRemovesItselfOrNothing(st, t); }
      case _ =>
    }
  }

  /** At some step the call was polled while it waited, and its channel had been resolved with success, or had not. */
  ghost predicate Woke(events: seq<Event>, s: nat, won: bool) {
    exists i: nat :: i < |events| && WakesAt(Run(events[..i]), events[i], s, won)
  }

  predicate WakesAt(st: State, e: Event, s: nat, won: bool) {
    e == Wake(s) && s in st.sends && st.sends[s].phase == Waiting && (st.sends[s].channel == Sent(true) <==> won)
  }

  /** At some step the call's own emit failed. */
  ghost predicate EmitFailed(events: seq<Event>, s: nat) {
    exists i: nat :: i < |events| && FailsAt(Run(events[..i]), events[i], s)
  }

  predicate FailsAt(st: State, e: Event, s: nat) {
    e == EmitFail(s) && st.emitter == Some(s)
  }

  /** At some step the call cleaned up. */
  ghost predicate CleanedUp(events: seq<Event>, s: nat) {
    exists i: nat :: i < |events| && CleansAt(Run(events[..i]), events[i], s)
  }

  predicate CleansAt(st: State, e: Event, s: nat) {
    e == Cleanup(s) && s in st.sends && st.sends[s].phase == Cleaning && st.emitter.None?
  }

  lemma WokeSnoc(events: seq<Event>, s: nat, won: bool)
    requires events != []
    ensures
      var n := |events| - 1;
      Woke(events, s, won) <==> Woke(events[..n], s, won) || WakesAt(Run(events[..n]), events[n], s, won)
  {
    assert forall i :: 0 <= i < |events| ==> events[..|events| - 1][..i] == events[..i] || i == |events|;
    assert forall i :: 0 <= i < |events| - 1 ==> events[..|events| - 1][i] == events[i];
  }

  lemma EmitFailedSnoc(events: seq<Event>, s: nat)
    requires events != []
    ensures
      var n := |events| - 1;
      EmitFailed(events, s) <==> EmitFailed(events[..n], s) || FailsAt(Run(events[..n]), events[n], s)
  {
    assert forall i :: 0 <= i < |events| ==> events[..|events| - 1][..i] == events[..i] || i == |events|;
    assert forall i :: 0 <= i < |events| - 1 ==> events[..|events| - 1][i] == events[i];
  }

  lemma CleanedUpSnoc(events: seq<Event>, s: nat)
    requires events != []
    ensures
      var n := |events| - 1;
      CleanedUp(events, s) <==> CleanedUp(events[..n], s) || CleansAt(Run(events[..n]), events[n], s)
  {
    assert forall i :: 0 <= i < |events| ==> events[..|events| - 1][..i] == events[..i] || i == |events|;
    assert forall i :: 0 <= i < |events| - 1 ==> events[..|events| - 1][i] == events[i];
  }

  /**
   What a call returns, over every run. `Live` exactly when it was polled after a success ack had resolved it;
   `Failed` exactly when its own emit failed; the fallback exactly when it was polled without such an ack (a
   timeout, a refusal or a lost channel) and then cleaned up.
   */
  lemma {:induction false} OutcomeIff(events: seq<Event>, s: nat)
    requires s in Run(events).sends
    ensures Run(events).sends[s].phase == Live <==> Woke(events, s, true)
    ensures Run(events).sends[s].phase == Failed <==> EmitFailed(events, s)
    ensures Run(events).sends[s].phase in {Cleaning, Fallback} <==> Woke(events, s, false)
    ensures Run(events).sends[s].phase == Fallback <==> CleanedUp(events, s)
  {
    if events == [] { return; }
    var n := |events| - 1;
    var st, e := Run(events[..n]), events[n];
    RunKeepsInv(events[..n]);
    WokeSnoc(events, s, true);
    WokeSnoc(events, s, false);
    EmitFailedSnoc(events, s);
    CleanedUpSnoc(events, s);
    if s in st.sends {
      OutcomeIff(events[..n], s);
      PhaseMoves(st, e, s);
    } else {
      NewSendsAreUnderWay(st, e, s);
      NothingBefore(events[..n], s);
      RunKeepsInv(events[..n]);
    }
  }

  /** A call that has not begun has no history. */
  lemma {:induction false} NothingBefore(events: seq<Event>, s: nat)
    requires s !in Run(events).sends
    ensures !Woke(events, s, true) && !Woke(events, s, false) && !EmitFailed(events, s) && !CleanedUp(events, s)
    ensures Run(events).emitter != Some(s)
  {
    RunKeepsInv(events);
    if events != [] {
      var before := events[..|events| - 1];
      WokeSnoc(events, s, true);
      WokeSnoc(events, s, false);
      EmitFailedSnoc(events, s);
      CleanedUpSnoc(events, s);
      if s in Run(before).sends {
        RunKeepsInv(before);
        SendsPersist(Run(before), events[|events| - 1], s);
      }
      NothingBefore(before, s);
    }
  }

  /** One more poll decides a waiting call: acked with success it returns `Live`, otherwise it cleans up. */
  lemma AckedCallReturnsLive(events: seq<Event>, s: nat)
    requires s in Run(events).sends && Run(events).sends[s].phase == Waiting
    ensures s in Run(events + [Wake(s)]).sends
    ensures Run(events + [Wake(s)]).sends[s].phase == if Run(events).sends[s].channel == Sent(true) then Live else Cleaning
  {
    RunSnoc(events, Wake(s));
    RunKeepsInv(events);
    PhaseMoves(Run(events), Wake(s), s);
  }

  /** A disconnect refuses every waiter that still listens, and leaves the connection with none; a drop only closes them. */
  lemma DisconnectRefusesAll(events: seq<Event>, k: nat, key: string, w: Waiter)
    requires Run(events).current == Some(k) && Run(events).emitter.None? && w in SlotQueue(Run(events), k, key)
    ensures
      var st, st' := Run(events), Run(events + [Disconnect]);
      && st'.current == None && SlotQueue(st', k, key) == []
      && w in st.sends && w in st'.sends && (Listening(st.sends[w]) ==> st'.sends[w].channel == Sent(false))
  {
    RunSnoc(events, Disconnect);
    RunKeepsInv(events);
    assert w in AllWaiters(Run(events).pending[k]);
  }

  lemma DropClosesAll(events: seq<Event>, k: nat, key: string, w: Waiter)
    requires Run(events).current != Some(k) && w in SlotQueue(Run(events), k, key)
    ensures
      var st, st' := Run(events), Run(events + [DropSocket(k)]);
      && SlotQueue(st', k, key) == []
      && w in st.sends && w in st'.sends && (Listening(st.sends[w]) ==> st'.sends[w].channel == Closed)
  {
    RunSnoc(events, DropSocket(k));
    RunKeepsInv(events);
    assert w in AllWaiters(Run(events).pending[k]);
  }

  // ---- Whom a cleanup hits ----

  /**
   A cleanup removes the caller's own waiter exactly when that waiter is the oldest of the room on the
   current socket. Otherwise, with a waiter queued, another call loses its channel: if it was still
   listening it can never return `Live`.
   */
  lemma CleanupHitsItsOwnIffOldest(events: seq<Event>, s: nat, more: seq<Event>)
    requires s in Run(events).sends && Run(events).sends[s].phase == Cleaning && Run(events).emitter.None?
    ensures
      var st := Run(events);
      var queue := CleanupQueue(st, s);
      var queue' := CleanupQueue(Apply(st, Cleanup(s)), s);
      && (s in queue && s !in queue' <==> queue != [] && queue[0] == s)
      && (queue != [] && queue[0] != s && queue[0] in st.sends && Listening(st.sends[queue[0]]) ==>
            queue[0] in Run(events + [Cleanup(s)] + more).sends
            && Run(events + [Cleanup(s)] + more).sends[queue[0]].phase != Live)
      && (st.sends[s].channel == Sent(false) ==> s !in queue)
  {
    var st := Run(events);
    RunKeepsInv(events);
    CleanupEvictsOldest(st, s);
    var queue := CleanupQueue(st, s);
    if queue != [] {
      assert queue[0] in queue;
      assert queue == [queue[0]] + queue[1..];
      assert (events + [Cleanup(s)])[..|events|] == events;
      if queue[0] != s && Listening(st.sends[queue[0]]) {
        LostForGood(events + [Cleanup(s)], more, queue[0]);
      }
    }
  }

  lemma RunSnoc(events: seq<Event>, e: Event)
    ensures Run(events + [e]) == Apply(Run(events), e)
  {
    assert (events + [e])[..|events|] == events;
  }

  /** Two calls wait in one room. */
  ghost predicate TwoWaiting(st: State, k: nat, key: string, a: nat, b: nat) {
    && st.current == Some(k) && st.emitter == None && a != b && SlotQueue(st, k, key) == [a, b]
    && a in st.sends && st.sends[a] == Send(key, Some(k), Waiting, Pending)
    && b in st.sends && st.sends[b] == Send(key, Some(k), Waiting, Pending)
  }

  lemma TwoCanWait()
    ensures TwoWaiting(Run([Swap(0), Begin(0, "r"), EmitOk(0), Begin(1, "r"), EmitOk(1)]), 0, "r", 0, 1)
  {
    RunSnoc([], Swap(0));
    assert [] + [Swap(0)] == [Swap(0)];
    RunSnoc([Swap(0)], Begin(0, "r"));
    RunSnoc([Swap(0)] + [Begin(0, "r")], EmitOk(0));
    var two := [Swap(0)] + [Begin(0, "r")] + [EmitOk(0)];
    assert Run(two).sends == map[0 := Send("r", Some(0), Waiting, Pending)];
    assert SlotQueue(Run(two), 0, "r") == [0];
    RunSnoc(two, Begin(1, "r"));
    RunSnoc(two + [Begin(1, "r")], EmitOk(1));
    var four := two + [Begin(1, "r")] + [EmitOk(1)];
    assert SlotQueue(Run(four), 0, "r") == [0, 1];
    assert four == [Swap(0), Begin(0, "r"), EmitOk(0), Begin(1, "r"), EmitOk(1)];
  }

  /** The younger of two calls times out: the older loses its waiter, and the ack meant for it goes to nobody. */
  lemma TimeoutMisalignsTheQueue(events: seq<Event>, k: nat, key: string, a: nat, b: nat)
    requires TwoWaiting(Run(events), k, key, a, b)
    ensures
      var st := Run(events + [Wake(b)] + [Cleanup(b)] + [Ack(k, key, true)]);
      && a in st.sends && st.sends[a] == Send(key, Some(k), Waiting, Closed)
      && b in st.sends && st.sends[b] == Send(key, Some(k), Fallback, Pending)
  {
    var cleaned := events + [Wake(b)] + [Cleanup(b)];
    YoungerTimesOut(events, k, key, a, b);
    RunSnoc(cleaned, Ack(k, key, true));
    assert Run(cleaned).sends.Keys == Run(cleaned + [Ack(k, key, true)]).sends.Keys;
  }

  lemma YoungerTimesOut(events: seq<Event>, k: nat, key: string, a: nat, b: nat)
    requires TwoWaiting(Run(events), k, key, a, b)
    ensures
      var st := Run(events + [Wake(b)] + [Cleanup(b)]);
      && SlotQueue(st, k, key) == [b]
      && a in st.sends && st.sends[a] == Send(key, Some(k), Waiting, Closed)
      && b in st.sends && st.sends[b] == Send(key, Some(k), Fallback, Pending)
  {
    var woken := Run(events + [Wake(b)]);
    RunSnoc(events, Wake(b));
    WakeOfYounger(Run(events), k, key, a, b);
    RunSnoc(events + [Wake(b)], Cleanup(b));
    CleanupOfYounger(woken, k, key, a, b);
  }

  lemma CleanupOfYounger(st: State, k: nat, key: string, a: nat, b: nat)
    requires st.current == Some(k) && st.emitter == None && a != b && SlotQueue(st, k, key) == [a, b]
    requires a in st.sends && st.sends[a] == Send(key, Some(k), Waiting, Pending)
    requires b in st.sends && st.sends[b] == Send(key, Some(k), Cleaning, Pending)
    ensures
      var st' := Apply(st, Cleanup(b));
      && SlotQueue(st', k, key) == [b]
      && a in st'.sends && st'.sends[a] == Send(key, Some(k), Waiting, Closed)
      && b in st'.sends && st'.sends[b] == Send(key, Some(k), Fallback, Pending)
  {
    PutSlot(st, k, key, [a, b][1..], Apply(st, Cleanup(b)));
    assert [a, b][1..] == [b];
  }

  lemma WakeOfYounger(st: State, k: nat, key: string, a: nat, b: nat)
    requires TwoWaiting(st, k, key, a, b)
    ensures
      var st' := Apply(st, Wake(b));
      && st'.current == Some(k) && st'.emitter == None && SlotQueue(st', k, key) == [a, b]
      && st'.sends == st.sends[b := Send(key, Some(k), Cleaning, Pending)]
  {
  }
}
