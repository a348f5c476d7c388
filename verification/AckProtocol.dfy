/**
 Concurrent `send_live_message` calls, the ack dispatchers and the connection swaps as one step system.

 Acks carry no message id, so a room's acks are matched to its sends by queue order alone. A step is one
 critical section of the source. `Apply` ignores an event that is not enabled, so folding it over every
 sequence of events covers every interleaving.
 */
module AckProtocol {
  import opened Prelude
  import opened PendingAcks

  /** A one-shot channel: untouched, resolved with the ack's status, or dropped by its sender. */
  datatype Channel = Pending | Sent(ok: bool) | Closed

  datatype Phase =
    | Emitting  // holds the connection lock, its waiter is queued
    | Waiting   // emitted, awaiting the ack
    | Cleaning  // timed out, refused or dropped: about to call remove_pending_ack
    | Live      // returned DeliveryMode::Live
    | Fallback  // left for the HTTP path
    | Failed    // the emit itself failed

  /** `socket` is the connection the waiter was queued on, if there was one at the time. */
  datatype Send = Send(key: string, socket: Option<nat>, phase: Phase, channel: Channel)

  /** `emitter` holds the `ws_state` lock across its emit; `current` is the socket stored behind that lock. */
  datatype State = State(sends: map<nat, Send>, pending: map<nat, Queues>, current: Option<nat>, emitter: Option<nat>)

  datatype Event =
    | Begin(s: nat, key: string)
    | EmitOk(s: nat)
    | EmitFail(s: nat)
    | Ack(socket: nat, key: string, ok: bool)
    | Wake(s: nat)     // the awaiting call is polled; an untouched channel then means the timeout elapsed
    | Cleanup(s: nat)
    | Disconnect
    | Swap(socket: nat)
    | DropSocket(socket: nat)

  const START: State := State(map[], map[], None, None)

  /** The receiving half exists until the call stops waiting. */
  predicate Listening(send: Send) {
    send.phase == Emitting || send.phase == Waiting
  }

  /** Uses up the sending half of each channel in `ws`; nobody sees it once the receiver is gone. */
  function Deliver(sends: map<nat, Send>, ws: set<Waiter>, result: Channel): map<nat, Send> {
    map s | s in sends :: if s in ws && Listening(sends[s]) then sends[s].(channel := result) else sends[s]
  }

  function SlotQueue(st: State, socket: nat, key: string): seq<Waiter> {
    if socket in st.pending then QueueOf(st.pending[socket], key) else []
  }

  function ApplyBegin(st: State, s: nat, key: string): State {
    if s in st.sends || st.emitter.Some? then st
    else match st.current
      case None => st.(sends := st.sends[s := Send(key, None, Waiting, Pending)])
      case Some(k) =>
        if k !in st.pending then st
        else State(st.sends[s := Send(key, Some(k), Emitting, Pending)],
                   st.pending[k := PushBack(st.pending[k], key, s)], st.current, Some(s))
  }

  function ApplyEmitOk(st: State, s: nat): State {
    if st.emitter != Some(s) || s !in st.sends then st
    else st.(sends := st.sends[s := st.sends[s].(phase := Waiting)], emitter := None)
  }

  function ApplyEmitFail(st: State, s: nat): State {
    if st.emitter != Some(s) || s !in st.sends || st.sends[s].socket.None? || st.sends[s].socket.value !in st.pending then st
    else
      var k, key := st.sends[s].socket.value, st.sends[s].key;
      var queue := SlotQueue(st, k, key);
      var dropped := if queue == [] then {} else {queue[|queue| - 1]};
      var sends := Deliver(st.sends, dropped, Closed);
      State(sends[s := sends[s].(phase := Failed)],
            st.pending[k := PopBack(st.pending[k], key)], st.current, None)
  }

  function ApplyAck(st: State, k: nat, key: string, ok: bool): State {
    var queue := SlotQueue(st, k, key);
    if queue == [] then st
    else st.(sends := Deliver(st.sends, {queue[0]}, Sent(ok)),
             pending := st.pending[k := PopFront(st.pending[k], key)])
  }

  function ApplyWake(st: State, s: nat): State {
    if s !in st.sends || st.sends[s].phase != Waiting then st
    else st.(sends := st.sends[s := st.sends[s].(phase := if st.sends[s].channel == Sent(true) then Live else Cleaning)])
  }

  /** `remove_pending_ack` on whatever socket is current now, for the caller's room: the oldest waiter goes. */
  function ApplyCleanup(st: State, s: nat): State {
    if s !in st.sends || st.sends[s].phase != Cleaning || st.emitter.Some? then st
    else
      var key := st.sends[s].key;
      var queue := if st.current.Some? then SlotQueue(st, st.current.value, key) else [];
      var evicted := if queue == [] then {} else {queue[0]};
      var sends := Deliver(st.sends, evicted, Closed);
      st.(sends := sends[s := sends[s].(phase := Fallback)],
          pending := if queue == [] then st.pending
                     else st.pending[st.current.value := PopFront(st.pending[st.current.value], key)])
  }

  function ApplyDisconnect(st: State): State {
    if st.emitter.Some? || st.current.None? || st.current.value !in st.pending then st
    else
      var k := st.current.value;
      State(Deliver(st.sends, AllWaiters(st.pending[k]), Sent(false)), st.pending[k := map[]], None, None)
  }

  function ApplySwap(st: State, k: nat): State {
    if st.emitter.Some? || k in st.pending then st
    else st.(pending := st.pending[k := map[]], current := Some(k))
  }

  /** A socket that was swapped out is dropped, and the senders it still queued with it. */
  function ApplyDropSocket(st: State, k: nat): State {
    if k !in st.pending || st.current == Some(k) then st
    else st.(sends := Deliver(st.sends, AllWaiters(st.pending[k]), Closed), pending := st.pending[k := map[]])
  }

  function Apply(st: State, e: Event): State {
    match e
    case Begin(s, key) => ApplyBegin(st, s, key)
    case EmitOk(s) => ApplyEmitOk(st, s)
    case EmitFail(s) => ApplyEmitFail(st, s)
    case Ack(k, key, ok) => ApplyAck(st, k, key, ok)
    case Wake(s) => ApplyWake(st, s)
    case Cleanup(s) => ApplyCleanup(st, s)
    case Disconnect => ApplyDisconnect(st)
    case Swap(k) => ApplySwap(st, k)
    case DropSocket(k) => ApplyDropSocket(st, k)
  }

  function Run(events: seq<Event>): State {
    if events == [] then START else Apply(Run(events[..|events| - 1]), events[|events| - 1])
  }

  /** Calls that have not stopped waiting for, or cleaned up after, an ack of this socket and room. */
  function InFlight(sends: map<nat, Send>, k: nat, key: string): set<nat> {
    set s | s in sends && sends[s].socket == Some(k) && sends[s].key == key
            && sends[s].phase in {Emitting, Waiting, Cleaning}
  }

  /** Of those, the ones whose success ack has arrived but which have not yet returned. */
  function Won(sends: map<nat, Send>, k: nat, key: string): set<nat> {
    set s | s in InFlight(sends, k, key) && Listening(sends[s]) && sends[s].channel == Sent(true)
  }

  lemma PutSlot(st: State, k: nat, key: string, queue: seq<Waiter>, st': State)
    requires k in st.pending && st'.pending == st.pending[k := Put(st.pending[k], key, queue)]
    ensures forall j, other {:trigger SlotQueue(st', j, other)} ::
      SlotQueue(st', j, other) == if j == k && other == key then queue else SlotQueue(st, j, other)
  {
  }

  lemma ClearSlots(st: State, k: nat, st': State)
    requires st'.pending == st.pending[k := map[]]
    ensures forall j, other {:trigger SlotQueue(st', j, other)} ::
      SlotQueue(st', j, other) == if j == k then [] else SlotQueue(st, j, other)
  {
  }

  // ---- What every step keeps ----

  /** Every queued waiter belongs to a send of that socket and room, and nothing has used its channel. */
  ghost predicate Placed(st: State) {
    forall k, key, w :: k in st.pending && w in SlotQueue(st, k, key) ==>
      w in st.sends && st.sends[w].socket == Some(k) && st.sends[w].key == key && st.sends[w].channel == Pending
  }

  ghost predicate QueuesOk(st: State) {
    && (forall k :: k in st.pending ==> NoEmptyQueue(st.pending[k]))
    && (forall k, key :: k in st.pending ==> Distinct(SlotQueue(st, k, key)))
    && (st.current.Some? ==> st.current.value in st.pending)
  }

  /** While a send holds the lock its own waiter is the youngest of its queue, or was resolved and left none. */
  ghost predicate EmitterOk(st: State) {
    && (forall s :: s in st.sends && st.sends[s].phase == Emitting ==> st.emitter == Some(s))
    && (st.emitter.Some? ==>
          var s := st.emitter.value;
          && s in st.sends && st.sends[s].phase == Emitting && st.sends[s].socket.Some?
          && st.sends[s].socket == st.current
          && var queue := SlotQueue(st, st.sends[s].socket.value, st.sends[s].key);
             if st.sends[s].channel == Pending then queue != [] && queue[|queue| - 1] == s else queue == [])
  }

  ghost predicate SendsOk(st: State) {
    forall s :: s in st.sends ==>
      && (st.sends[s].socket.Some? ==> st.sends[s].socket.value in st.pending)
      && (st.sends[s].phase == Live ==> st.sends[s].channel == Sent(true))
      && (st.sends[s].phase in {Cleaning, Fallback} ==> st.sends[s].channel != Sent(true))
  }

  /** The counting invariant: waiters may be misassigned, but never outnumber the calls that will clean up. */
  ghost predicate Counted(st: State, k: nat, key: string) {
    |SlotQueue(st, k, key)| + |Won(st.sends, k, key)| <= |InFlight(st.sends, k, key)|
  }

  ghost predicate Shape(st: State) {
    Placed(st) && QueuesOk(st) && EmitterOk(st) && SendsOk(st)
  }

  /** Only the socket behind the lock is counted: a swapped-out one is dropped with whatever it still queues. */
  ghost predicate Inv(st: State) {
    Shape(st) && forall key :: st.current.Some? ==> Counted(st, st.current.value, key)
  }
}
