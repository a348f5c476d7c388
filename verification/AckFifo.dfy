/** While nothing disturbs a room, the k-th ack belongs to the k-th emitted send. */
module AckFifo {
  import opened Prelude
  import opened PendingAcks
  import opened AckProtocol
  import opened AckShape
  import opened AckCounting
  import opened AckTheorems

  predicate OnSlot(st: State, s: nat, k: nat, key: string) {
    s in st.sends && st.sends[s].socket == Some(k) && st.sends[s].key == key
  }

  /**
   The step neither lets a call of this socket and room time out or see a refusal, nor cleans up or closes
   the socket, and the server did not ack a send whose emit goes on to fail.
   */
  predicate Quiet(st: State, e: Event, k: nat, key: string) {
    match e
    case Wake(s) => OnSlot(st, s, k, key) && st.sends[s].phase == Waiting ==> st.sends[s].channel == Sent(true)
    case EmitFail(s) => OnSlot(st, s, k, key) && st.emitter == Some(s) ==> st.sends[s].channel == Pending
    case Cleanup(s) => s in st.sends && st.sends[s].key == key ==> st.current != Some(k)
    case Disconnect => st.current != Some(k)
    case DropSocket(j) => j != k
    case _ => true
  }

  predicate Undisturbed(events: seq<Event>, k: nat, key: string) {
    events != [] ==>
      var before, e := events[..|events| - 1], events[|events| - 1];
      Undisturbed(before, k, key) && Quiet(Run(before), e, k, key)
  }

  /** The sends of this socket and room whose emit succeeded, in emit order. */
  function Emitted(events: seq<Event>, k: nat, key: string): seq<Waiter> {
    if events == [] then []
    else
      var before, e := events[..|events| - 1], events[|events| - 1];
      Emitted(before, k, key) +
      (if e.EmitOk? && Run(before).emitter == Some(e.s) && OnSlot(Run(before), e.s, k, key) then [e.s] else [])
  }

  /** The send whose emit is under way on this socket and room. */
  function UnderWay(st: State, k: nat, key: string): seq<Waiter> {
    if st.emitter.Some? && OnSlot(st, st.emitter.value, k, key) then [st.emitter.value] else []
  }

  function WaitersOf(log: seq<Resolution>): (ws: seq<Waiter>)
    ensures |ws| == |log| && forall i :: 0 <= i < |log| ==> ws[i] == log[i].waiter
  {
    if log == [] then [] else WaitersOf(log[..|log| - 1]) + [log[|log| - 1].waiter]
  }

  ghost predicate AllListening(st: State, k: nat, key: string) {
    forall w :: w in SlotQueue(st, k, key) && w in st.sends ==> Listening(st.sends[w])
  }

  /** How one quiet step moves the queue, given the send under way before and after it. */
  ghost predicate QueueMoves(st: State, e: Event, st': State, k: nat, key: string) {
    var queue, queue' := SlotQueue(st, k, key), SlotQueue(st', k, key);
    if e.Ack? && e.socket == k && e.key == key && queue != [] then
      queue == [queue[0]] + queue' && UnderWay(st', k, key) == UnderWay(st, k, key)
    else if e.EmitOk? && st.emitter == Some(e.s) && OnSlot(st, e.s, k, key) then
      queue' == queue && UnderWay(st, k, key) == [e.s] && UnderWay(st', k, key) == []
    else
      || (queue' == queue && UnderWay(st', k, key) == UnderWay(st, k, key))
      || (UnderWay(st, k, key) == [] && queue' == queue + UnderWay(st', k, key))
      || (UnderWay(st', k, key) == [] && queue == queue' + UnderWay(st, k, key))
  }

  lemma BeginMoves(st: State, s: nat, newKey: string, k: nat, key: string)
    requires Inv(st)
    ensures QueueMoves(st, Begin(s, newKey), ApplyBegin(st, s, newKey), k, key)
  {
    var st' := ApplyBegin(st, s, newKey);
    if st' != st && st.current.Some? {
      PutSlot(st, st.current.value, newKey, SlotQueue(st, st.current.value, newKey) + [s], st');
    }
  }

  lemma EmitFailMoves(st: State, s: nat, k: nat, key: string)
    requires Inv(st) && Quiet(st, EmitFail(s), k, key)
    ensures QueueMoves(st, EmitFail(s), ApplyEmitFail(st, s), k, key)
  {
    if ApplyEmitFail(st, s) != st {
      FailedEmitRemovesItselfOrNothing(st, s);
    }
  }

  lemma AckMoves(st: State, j: nat, ackKey: string, ok: bool, k: nat, key: string)
    requires Inv(st)
    ensures QueueMoves(st, Ack(j, ackKey, ok), ApplyAck(st, j, ackKey, ok), k, key)
  {
    var st' := ApplyAck(st, j, ackKey, ok);
    if SlotQueue(st, j, ackKey) != [] {
      PutSlot(st, j, ackKey, SlotQueue(st, j, ackKey)[1..], st');
      assert UnderWay(st', k, key) == UnderWay(st, k, key);
    }
  }

  lemma QuietStepMoves(st: State, e: Event, k: nat, key: string)
    requires Inv(st) && Quiet(st, e, k, key)
    ensures QueueMoves(st, e, Apply(st, e), k, key)
  {
    var st' := Apply(st, e);
    match e {
      case Begin(s, newKey) => BeginMoves(st, s, newKey, k, key);
      case EmitOk(s) => assert SlotQueue(st', k, key) == SlotQueue(st, k, key);
      case EmitFail(s) => EmitFailMoves(st, s, k, key);
      case Ack(j, ackKey, ok) => AckMoves(st, j, ackKey, ok, k, key);
      case Wake(s) => assert SlotQueue(st', k, key) == SlotQueue(st, k, key);
      case Cleanup(s) => if st' != st { CleanupEvictsOldest(st, s); }
      case Disconnect => if st' != st { ClearSlots(st, st.current.value, st'); }
      case Swap(j) => if st' != st { ClearSlots(st, j, st'); }
      case DropSocket(j) => if st' != st { ClearSlots(st, j, st'); }
    }
  }

  /** In a quiet step no queued call of the room stops listening, and an ack reaches the call it resolves. */
  lemma QuietStepListens(st: State, e: Event, k: nat, key: string)
    requires Inv(st) && Quiet(st, e, k, key) && AllListening(st, k, key)
    ensures AllListening(Apply(st, e), k, key)
    ensures
      var queue := SlotQueue(st, k, key);
      e.Ack? && e.socket == k && e.key == key && queue != [] ==>
        queue[0] in Apply(st, e).sends && Apply(st, e).sends[queue[0]].channel == Sent(e.ok)
  {
    var st', queue := Apply(st, e), SlotQueue(st, k, key);
    if e.Ack? && e.socket == k && e.key == key && queue != [] {
      assert queue[0] in queue;
    }
    forall w | w in SlotQueue(st', k, key) && w in st'.sends ensures Listening(st'.sends[w]) {
      QueuesOnlyGainNewSends(st, e, k, key, w);
      if w in queue {
        QueuedStillListening(st, e, k, key, w);
      }
    }
  }

  lemma QueuedStillListening(st: State, e: Event, k: nat, key: string, w: Waiter)
    requires Inv(st) && Quiet(st, e, k, key) && w in SlotQueue(st, k, key) && w in SlotQueue(Apply(st, e), k, key)
    requires w in st.sends && Listening(st.sends[w])
    ensures w in Apply(st, e).sends && Listening(Apply(st, e).sends[w])
  {
    match e {
      case EmitFail(s) => if Apply(st, e) != st { FailedEmitRemovesItselfOrNothing(st, s); }
      case _ =>
    }
  }

  lemma {:induction false} AcksReachTheirCalls(events: seq<Event>, k: nat, key: string)
    requires Undisturbed(events, k, key)
    ensures AllListening(Run(events), k, key)
    ensures forall r :: r in Resolutions(events, k, key) ==>
      r.waiter in Run(events).sends && Run(events).sends[r.waiter].channel == Sent(r.ok)
  {
    if events == [] { return; }
    var before, e := events[..|events| - 1], events[|events| - 1];
    AcksReachTheirCalls(before, k, key);
    RunKeepsInv(before);
    QuietStepListens(Run(before), e, k, key);
    forall r | r in Resolutions(before, k, key)
      ensures r.waiter in Run(events).sends && Run(events).sends[r.waiter].channel == Sent(r.ok)
    {
      SendsPersist(Run(before), e, r.waiter);
    }
  }

  /** In an undisturbed room no emit fails after its send was acked, and nobody is refused. */
  lemma {:induction false} FailuresWereNotAcked(events: seq<Event>, k: nat, key: string)
    requires Undisturbed(events, k, key)
    ensures forall s :: OnSlot(Run(events), s, k, key) && Run(events).sends[s].channel == Sent(true) ==>
      Run(events).sends[s].phase in {Emitting, Waiting, Live}
  {
    RunKeepsInv(events);
    if events == [] { return; }
    var before, e := events[..|events| - 1], events[|events| - 1];
    FailuresWereNotAcked(before, k, key);
    RunKeepsInv(before);
    forall s | OnSlot(Run(events), s, k, key) && Run(events).sends[s].channel == Sent(true)
      ensures Run(events).sends[s].phase in {Emitting, Waiting, Live}
    {
      if s in Run(before).sends {
        SendsPersist(Run(before), e, s);
        PhaseMoves(Run(before), e, s);
        if Run(before).sends[s].channel != Sent(true) {
          ChannelWonInStep(Run(before), e, s);
          AllListeningAt(before, k, key, s);
        }
      } else {
        NewSendsAreUnderWay(Run(before), e, s);
      }
    }
  }

  lemma AllListeningAt(events: seq<Event>, k: nat, key: string, s: nat)
    requires Undisturbed(events, k, key) && s in SlotQueue(Run(events), k, key) && s in Run(events).sends
    ensures Listening(Run(events).sends[s])
  {
    AcksReachTheirCalls(events, k, key);
  }

  /**
   In an undisturbed room every call that a success ack resolved is on its way to `Live` or there; once they
   have all been polled, the `Live` calls are exactly the waiters of the success resolutions.
   */
  lemma LiveCallsAreTheAcked(events: seq<Event>, k: nat, key: string)
    requires Undisturbed(events, k, key)
    ensures forall r :: r in Resolutions(events, k, key) && r.ok ==>
      r.waiter in Run(events).sends && Run(events).sends[r.waiter].phase in {Emitting, Waiting, Live}
    ensures (forall r :: r in Resolutions(events, k, key) && r.ok && r.waiter in Run(events).sends ==>
               Run(events).sends[r.waiter].phase !in {Emitting, Waiting}) ==>
      LiveCalls(Run(events), k, key) == set r | r in Resolutions(events, k, key) && r.ok :: r.waiter
  {
    AcksReachTheirCalls(events, k, key);
    FailuresWereNotAcked(events, k, key);
    LiveIsSound(events, k, key);
    forall r | r in Resolutions(events, k, key) ensures OnSlot(Run(events), r.waiter, k, key) {
      ResolvedOnSlot(events, k, key, r);
    }
    forall s | s in LiveCalls(Run(events), k, key) ensures exists r :: r in Resolutions(events, k, key) && r.ok && r.waiter == s {
      assert Resolution(s, true) in Resolutions(events, k, key);
    }
  }

  /** What is resolved for a room is one of its sends. */
  lemma {:induction false} ResolvedOnSlot(events: seq<Event>, k: nat, key: string, r: Resolution)
    requires r in Resolutions(events, k, key)
    ensures OnSlot(Run(events), r.waiter, k, key)
  {
    var before, e := events[..|events| - 1], events[|events| - 1];
    RunKeepsInv(before);
    var queue := SlotQueue(Run(before), k, key);
    if r in Resolutions(before, k, key) {
      ResolvedOnSlot(before, k, key, r);
    } else {
      assert queue != [] && r.waiter == queue[0] && queue[0] in queue;
    }
    SendsPersist(Run(before), e, r.waiter);
  }

  /** The sequence algebra of one step. */
  lemma StepKeepsOrder(done: seq<Waiter>, queue: seq<Waiter>, out: seq<Waiter>, under: seq<Waiter>,
                       done': seq<Waiter>, queue': seq<Waiter>, out': seq<Waiter>, under': seq<Waiter>)
    requires done + queue == out + under
    requires
      || (queue != [] && done' == done + [queue[0]] && queue == [queue[0]] + queue' && out' == out && under' == under)
      || (done' == done && queue' == queue && out' == out + under && under' == [])
      || (done' == done && queue' == queue && out' == out && under' == under)
      || (done' == done && out' == out && under == [] && queue' == queue + under')
      || (done' == done && out' == out && under' == [] && queue == queue' + under)
    ensures done' + queue' == out' + under'
  {
    if queue != [] && done' == done + [queue[0]] && queue == [queue[0]] + queue' {
      assert done' + queue' == done + ([queue[0]] + queue');
    } else if done' == done && out' == out && under == [] && queue' == queue + under' {
      assert done + queue' == (done + queue) + under';
    } else if done' == done && out' == out && under' == [] && queue == queue' + under {
      assert (done + queue') + under == out + under;
      assert ((done + queue') + under)[..|done + queue'|] == (out + under)[..|out|];
    }
  }

  /** Resolved waiters, then queued ones, are the emitted sends in order, then the one under way. */
  lemma {:induction false} QueueFollowsEmits(events: seq<Event>, k: nat, key: string)
    requires Undisturbed(events, k, key)
    ensures
      WaitersOf(Resolutions(events, k, key)) + SlotQueue(Run(events), k, key)
      == Emitted(events, k, key) + UnderWay(Run(events), k, key)
  {
    if events == [] { return; }
    var before, e := events[..|events| - 1], events[|events| - 1];
    var st, st' := Run(before), Run(events);
    QueueFollowsEmits(before, k, key);
    RunKeepsInv(before);
    QuietStepMoves(st, e, k, key);
    var log, log' := Resolutions(before, k, key), Resolutions(events, k, key);
    assert log' != log ==> log'[..|log'| - 1] == log;
    StepKeepsOrder(WaitersOf(log), SlotQueue(st, k, key), Emitted(before, k, key), UnderWay(st, k, key),
                   WaitersOf(log'), SlotQueue(st', k, key), Emitted(events, k, key), UnderWay(st', k, key));
  }

  /**
   FIFO correlation. In an undisturbed room the i-th ack that found a waiter resolved the i-th emitted send
   (the last may still be returning from its emit), with the status of that very ack.
   */
  lemma FifoCorrelation(events: seq<Event>, k: nat, key: string, i: nat)
    requires Undisturbed(events, k, key) && i < |Resolutions(events, k, key)|
    ensures
      var order := Emitted(events, k, key) + UnderWay(Run(events), k, key);
      var r := Resolutions(events, k, key)[i];
      && i < |order| && r.waiter == order[i]
      && r.waiter in Run(events).sends && Run(events).sends[r.waiter].channel == Sent(r.ok)
  {
    QueueFollowsEmits(events, k, key);
    AcksReachTheirCalls(events, k, key);
    var log := Resolutions(events, k, key);
    assert log[i] in log;
    assert (WaitersOf(log) + SlotQueue(Run(events), k, key))[i] == log[i].waiter;
  }
}
