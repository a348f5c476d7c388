/** The ack registry of one WebSocket connection: `sendMessageAck-{room}` to a queue of waiters. */
module PendingAcks {
  import opened Prelude

  /** Names a one-shot channel. Its sending half sits in a queue; the call that made it holds the other. */
  type Waiter = nat

  type Queues = map<string, seq<Waiter>>

  /** Queues are removed with their last waiter, so a key that is present has a waiter. */
  ghost predicate NoEmptyQueue(queues: Queues) {
    forall key :: key in queues ==> queues[key] != []
  }

  function QueueOf(queues: Queues, key: string): seq<Waiter> {
    if key in queues then queues[key] else []
  }

  /** Stores a queue, or removes the key when nothing is left in it. */
  function Put(queues: Queues, key: string, queue: seq<Waiter>): (r: Queues)
    ensures forall other :: other != key ==> QueueOf(r, other) == QueueOf(queues, other)
    ensures QueueOf(r, key) == queue
    ensures NoEmptyQueue(queues) ==> NoEmptyQueue(r)
  {
    if queue == [] then map other | other in queues && other != key :: queues[other] else queues[key := queue]
  }

  function PushBack(queues: Queues, key: string, w: Waiter): Queues {
    Put(queues, key, QueueOf(queues, key) + [w])
  }

  function PopFront(queues: Queues, key: string): Queues {
    var queue := QueueOf(queues, key);
    Put(queues, key, if queue == [] then [] else queue[1..])
  }

  function PopBack(queues: Queues, key: string): Queues {
    var queue := QueueOf(queues, key);
    Put(queues, key, if queue == [] then [] else queue[..|queue| - 1])
  }

  /** Everyone waiting on this connection, whatever the room. */
  function AllWaiters(queues: Queues): set<Waiter> {
    set key, w | key in queues && w in queues[key] :: w
  }

  /** A waiter sits in one queue, at one position. */
  ghost predicate Unshared(queues: Queues) {
    && (forall key :: key in queues ==> Distinct(queues[key]))
    && (forall a, b, w :: a in queues && b in queues && w in queues[a] && w in queues[b] ==> a == b)
  }

  /** The connection's own state. `subscriptions` maps an event key to the callback installed for it. */
  class MessageBoxWebSocket {
    var pendingAcks: Queues
    var subscriptions: map<string, nat>
    var joinedRooms: set<string>

    constructor ()
      ensures pendingAcks == map[] && subscriptions == map[] && joinedRooms == {}
    {
      pendingAcks, subscriptions, joinedRooms := map[], map[], {};
    }

    /** First critical section of `emit_send_message`: the waiter is queued before the frame is sent. */
    method RegisterWaiter(key: string, w: Waiter)
      modifies this`pendingAcks
      ensures pendingAcks == PushBack(old(pendingAcks), key, w)
    {
      var queue := if key in pendingAcks then pendingAcks[key] else [];
      pendingAcks := pendingAcks[key := queue + [w]];
    }

    /** Second critical section, entered only when the emit failed. */
    method RollbackWaiter(key: string) returns (removed: Option<Waiter>)
      modifies this`pendingAcks
      ensures pendingAcks == PopBack(old(pendingAcks), key)
      ensures removed.None? <==> QueueOf(old(pendingAcks), key) == []
      ensures removed.Some? ==> QueueOf(old(pendingAcks), key) == QueueOf(pendingAcks, key) + [removed.value]
    {
      removed := None;
      if key in pendingAcks {
        var queue := pendingAcks[key];
        if queue != [] {
          removed := Some(queue[|queue| - 1]);
          queue := queue[..|queue| - 1];
          pendingAcks := pendingAcks[key := queue];
        }
        if queue == [] {
          pendingAcks := map other | other in pendingAcks && other != key :: pendingAcks[other];
        }
      }
    }

    /** Pops the oldest waiter: the dispatcher's ack branch resolves it, `remove_pending_ack` drops it. */
    method TakeOldest(key: string) returns (oldest: Option<Waiter>)
      modifies this`pendingAcks
      ensures pendingAcks == PopFront(old(pendingAcks), key)
      ensures oldest.None? <==> QueueOf(old(pendingAcks), key) == []
      ensures oldest.Some? ==> QueueOf(old(pendingAcks), key) == [oldest.value] + QueueOf(pendingAcks, key)
    {
      oldest := None;
      if key in pendingAcks {
        var queue := pendingAcks[key];
        if queue != [] {
          oldest := Some(queue[0]);
          queue := queue[1..];
          pendingAcks := pendingAcks[key := queue];
        }
        if queue == [] {
          pendingAcks := map other | other in pendingAcks && other != key :: pendingAcks[other];
        }
      }
    }

    /** Drains every queue; `refused` lists the waiters told `false`, each of them once as no two places share one. */
    method Disconnect() returns (refused: seq<Waiter>)
      modifies this
      ensures pendingAcks == map[] && subscriptions == map[] && joinedRooms == {}
      ensures Elements(refused) == AllWaiters(old(pendingAcks))
      ensures Unshared(old(pendingAcks)) ==> Distinct(refused)
    {
      refused := [];
      var keys := pendingAcks.Keys;
      ghost var done: set<string> := {};
      while keys != {}
        invariant keys !! done && keys + done == pendingAcks.Keys
        invariant pendingAcks == old(pendingAcks)
        invariant forall w :: w in refused <==> exists key :: key in done && w in pendingAcks[key]
        invariant Unshared(pendingAcks) ==> Distinct(refused)
        decreases keys
      {
        var key :| key in keys;
        if Unshared(pendingAcks) {
          DistinctConcat(refused, pendingAcks[key]);
        }
        refused := refused + pendingAcks[key];
        keys := keys - {key};
        done := done + {key};
      }
      pendingAcks, subscriptions, joinedRooms := map[], map[], {};
    }

    /** Idempotent; a failed wire join leaves the room untracked. */
    method JoinRoom(room: string, wireOk: bool) returns (ok: bool)
      modifies this`joinedRooms
      ensures ok <==> room in old(joinedRooms) || wireOk
      ensures joinedRooms == if ok then old(joinedRooms) + {room} else old(joinedRooms)
    {
      if room in joinedRooms { return true; }
      if !wireOk { return false; }
      joinedRooms := joinedRooms + {room};
      return true;
    }

    /** Local state goes first, whatever becomes of the wire emit. */
    method LeaveRoom(room: string, wireOk: bool) returns (ok: bool)
      modifies this`joinedRooms, this`subscriptions
      ensures room !in joinedRooms && "sendMessage-" + room !in subscriptions
      ensures joinedRooms == old(joinedRooms) - {room}
      ensures subscriptions == old(subscriptions) - {"sendMessage-" + room}
      ensures ok == wireOk
    {
      joinedRooms := joinedRooms - {room};
      subscriptions := subscriptions - {"sendMessage-" + room};
      ok := wireOk;
    }
  }
}
