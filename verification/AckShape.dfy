/** Each step keeps `Shape`. */
module AckShape {
  import opened Prelude
  import opened PendingAcks
  import opened AckProtocol

  lemma BeginKeepsShape(st: State, s: nat, key: string)
    requires Shape(st)
    ensures Shape(ApplyBegin(st, s, key))
  {
    var st' := ApplyBegin(st, s, key);
    if st' != st && st.current.Some? {
      var k := st.current.value;
      var queue := SlotQueue(st, k, key);
      assert s !in queue;
      PutSlot(st, k, key, queue + [s], st');
    } else {
      assert forall k, other :: SlotQueue(st', k, other) == SlotQueue(st, k, other);
    }
  }

  lemma EmitOkKeepsShape(st: State, s: nat)
    requires Shape(st)
    ensures Shape(ApplyEmitOk(st, s))
  {
    var st' := ApplyEmitOk(st, s);
    assert forall k, other :: SlotQueue(st', k, other) == SlotQueue(st, k, other);
  }

  /** `pop_back` after a failed emit removes the failing call's own waiter, or finds the queue gone. */
  lemma FailedEmitRemovesItselfOrNothing(st: State, s: nat)
    requires Shape(st) && st.emitter == Some(s)
    ensures s in st.sends && st.sends[s].socket.Some?
    ensures
      var k, key := st.sends[s].socket.value, st.sends[s].key;
      var st' := ApplyEmitFail(st, s);
      && (if st.sends[s].channel == Pending
          then SlotQueue(st, k, key) == SlotQueue(st', k, key) + [s]
          else SlotQueue(st, k, key) == SlotQueue(st', k, key) == [])
      && (forall j, other :: j != k || other != key ==> SlotQueue(st', j, other) == SlotQueue(st, j, other))
      && (forall w :: w in st.sends && w != s ==> w in st'.sends && st'.sends[w] == st.sends[w])
  {
    var k, key := st.sends[s].socket.value, st.sends[s].key;
    var queue := SlotQueue(st, k, key);
    PutSlot(st, k, key, if queue == [] then [] else queue[..|queue| - 1], ApplyEmitFail(st, s));
  }

  lemma EmitFailKeepsShape(st: State, s: nat)
    requires Shape(st)
    ensures Shape(ApplyEmitFail(st, s))
  {
    var st' := ApplyEmitFail(st, s);
    if st' == st { return; }
    FailedEmitRemovesItselfOrNothing(st, s);
    var k, key := st.sends[s].socket.value, st.sends[s].key;
    assert st'.sends.Keys == st.sends.Keys && st'.sends[s].phase == Failed;
    assert s !in SlotQueue(st', k, key);
    forall j, other, w | j in st'.pending && w in SlotQueue(st', j, other)
      ensures w in st.sends && w != s && w in SlotQueue(st, j, other)
    {
    }
  }

  lemma AckKeepsShape(st: State, k: nat, key: string, ok: bool)
    requires Shape(st)
    ensures Shape(ApplyAck(st, k, key, ok))
  {
    var queue := SlotQueue(st, k, key);
    if queue != [] {
      PutSlot(st, k, key, queue[1..], ApplyAck(st, k, key, ok));
    }
  }

  lemma WakeKeepsShape(st: State, s: nat)
    requires Shape(st)
    ensures Shape(ApplyWake(st, s))
  {
    var st' := ApplyWake(st, s);
    assert forall k, other :: SlotQueue(st', k, other) == SlotQueue(st, k, other);
  }

  /** The queue `remove_pending_ack` pops: the caller's room, on whatever socket is current. */
  function CleanupQueue(st: State, s: nat): seq<Waiter>
    requires s in st.sends
  {
    if st.current.Some? then SlotQueue(st, st.current.value, st.sends[s].key) else []
  }

  /**
   A cleanup drops the oldest waiter of the room, whoever owns it. If that call is still listening its
   channel closes under it, and it will give up in turn.
   */
  lemma CleanupEvictsOldest(st: State, s: nat)
    requires Shape(st) && s in st.sends && st.sends[s].phase == Cleaning && st.emitter.None?
    ensures
      var st' := ApplyCleanup(st, s);
      var queue := CleanupQueue(st, s);
      && st'.sends.Keys == st.sends.Keys && st'.sends[s] == st.sends[s].(phase := Fallback)
      && st'.pending.Keys == st.pending.Keys && st'.current == st.current && st'.emitter == None
      && (forall w :: w in st.sends && w != s && (queue != [] ==> w != queue[0]) ==> st'.sends[w] == st.sends[w])
      && (queue != [] && queue[0] != s ==>
            var w := queue[0];
            && w in st.sends
            && st'.sends[w] == if Listening(st.sends[w]) then st.sends[w].(channel := Closed) else st.sends[w])
      && (queue != [] ==> SlotQueue(st', st.current.value, st.sends[s].key) == queue[1..])
      && (forall j: nat, other :: queue == [] || Some(j) != st.current || other != st.sends[s].key ==>
            SlotQueue(st', j, other) == SlotQueue(st, j, other))
      && (forall j :: j in st.pending ==> NoEmptyQueue(st'.pending[j]))
  {
    var st' := ApplyCleanup(st, s);
    var queue := CleanupQueue(st, s);
    if queue != [] {
      assert queue[0] in queue;
      PutSlot(st, st.current.value, st.sends[s].key, queue[1..], st');
    } else {
      assert forall j, other :: SlotQueue(st', j, other) == SlotQueue(st, j, other);
    }
  }

  /** Shape survives losing the front of one queue together with its channel, and one call falling back. */
  lemma ShapeAfterEviction(st: State, s: nat, evicted: set<nat>, st': State)
    requires Shape(st) && s in st.sends && st.sends[s].phase == Cleaning && st.emitter.None?
    requires st'.sends.Keys == st.sends.Keys && st'.sends[s] == st.sends[s].(phase := Fallback)
    requires st'.pending.Keys == st.pending.Keys && st'.current == st.current && st'.emitter == None
    requires forall j :: j in st.pending ==> NoEmptyQueue(st'.pending[j])
    requires forall w :: w in st.sends && w != s && w !in evicted ==> st'.sends[w] == st.sends[w]
    requires forall w :: w in st.sends && w != s && w in evicted ==>
      st'.sends[w] == st.sends[w] || st'.sends[w] == st.sends[w].(channel := Closed)
    requires forall w :: w in evicted && w in st.sends ==> st.sends[w].channel == Pending
    requires forall j, other {:trigger SlotQueue(st', j, other)} :: j in st.pending ==>
      Distinct(SlotQueue(st', j, other)) &&
      forall w :: w in SlotQueue(st', j, other) ==> w in SlotQueue(st, j, other) && w !in evicted
    ensures Shape(st')
  {
  }

  lemma CleanupKeepsShape(st: State, s: nat)
    requires Shape(st)
    ensures Shape(ApplyCleanup(st, s))
  {
    var st' := ApplyCleanup(st, s);
    if st' == st { return; }
    CleanupEvictsOldest(st, s);
    var queue := CleanupQueue(st, s);
    var evicted := if queue == [] then {} else {queue[0]};
    forall j, other | j in st.pending
      ensures Distinct(SlotQueue(st', j, other))
      ensures forall w :: w in SlotQueue(st', j, other) ==> w in SlotQueue(st, j, other) && w !in evicted
    {
      if queue != [] {
        assert queue[0] in queue;
        if Some(j) == st.current && other == st.sends[s].key {
          assert SlotQueue(st, j, other) == queue && SlotQueue(st', j, other) == queue[1..];
        }
      }
    }
    ShapeAfterEviction(st, s, evicted, st');
  }

  lemma WaitersOfSocket(st: State, k: nat)
    requires Placed(st) && k in st.pending
    ensures forall w :: w in AllWaiters(st.pending[k]) ==> w in st.sends && st.sends[w].socket == Some(k)
  {
    forall w | w in AllWaiters(st.pending[k]) ensures w in st.sends && st.sends[w].socket == Some(k) {
      var key :| key in st.pending[k] && w in st.pending[k][key];
      assert w in SlotQueue(st, k, key);
    }
  }

  lemma DisconnectKeepsShape(st: State)
    requires Shape(st)
    ensures Shape(ApplyDisconnect(st))
  {
    if ApplyDisconnect(st) != st {
      WaitersOfSocket(st, st.current.value);
      ClearSlots(st, st.current.value, ApplyDisconnect(st));
    }
  }

  lemma SwapKeepsShape(st: State, k: nat)
    requires Shape(st)
    ensures Shape(ApplySwap(st, k))
  {
    if ApplySwap(st, k) != st {
      ClearSlots(st, k, ApplySwap(st, k));
    }
  }

  lemma DropSocketKeepsShape(st: State, k: nat)
    requires Shape(st)
    ensures Shape(ApplyDropSocket(st, k))
  {
    if ApplyDropSocket(st, k) != st {
      WaitersOfSocket(st, k);
      ClearSlots(st, k, ApplyDropSocket(st, k));
    }
  }
}
