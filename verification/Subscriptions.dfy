/** Listeners, the registry that outlives connections, the callbacks on each connection, and the poll tasks. */
module Subscriptions {
  import opened Prelude
  import opened DedupWindow
  import opened PollBackstop

  /** Names one wrapped callback; each `listen` call makes one, with its own dedup window. */
  type Listener = nat

  /** How far the `listen` call that made a callback has come, and after that what its poll task does. */
  datatype Stage =
    | Installed   // on the connection of that moment, if there was one
    | Registered  // in the client's registry too
    | Joined      // its room is marked as joined; the task is about to be spawned
    | Asleep      // the task waits for its next interval
    | Polling     // the task found the room joined and has a page to deliver
    | Ended       // the task found the room left

  /**
   `arrivals` lists the ids the wrapped callback was handed, by any path; `activity` counts those that were
   pushed, and `gate` is what the poll task remembers of that counter.
   */
  datatype Callback = Callback(room: string, stage: Stage, activity: nat, gate: Gate, arrivals: seq<string>)

  datatype Delivery = Delivery(listener: Listener, id: string)

  /**
   `joined` and `registry` are the client's. `sockets` has what is installed on each connection ever opened,
   `ready` the ones opened and not yet swapped in. `held` is a message whose callback a connection's
   dispatcher has looked up and not called yet.
   */
  datatype World = World(
    joined: set<string>,
    registry: map<string, Listener>,
    sockets: map<nat, map<string, Listener>>,
    ready: set<nat>,
    current: Option<nat>,
    held: map<nat, Delivery>,
    callbacks: map<Listener, Callback>)

  datatype Event =
    | Listen(room: string, l: Listener)
    | Register(l: Listener)
    | Join(l: Listener)
    | Spawn(l: Listener)
    | Tick(l: Listener)                          // an interval is over: end, stand down or poll
    | Deliver(l: Listener, id: string)           // one message of the page a poll returned
    | Finish(l: Listener)
    | JoinRoom(room: string)                     // the client's own join_room, which listens to nothing
    | Unjoin(room: string)                       // the three steps of leave_room
    | Unregister(room: string)
    | Unsubscribe(room: string)
    | Connect(socket: nat, rejoined: set<string>) // a reconnect copies the registry for the rooms it could join
    | Swap(socket: nat)
    | Disconnect
    | Drop(socket: nat)                          // a connection that was replaced has no more messages
    | Fetch(socket: nat, room: string, id: string)
    | Call(socket: nat)

  const START: World := World({}, map[], map[], {}, None, map[], map[])

  function Replayed(registry: map<string, Listener>, rejoined: set<string>): map<string, Listener> {
    map room | room in registry && room in rejoined :: registry[room]
  }

  /** The replay loop: join each registered room again, and install its callback where that worked. */
  method ReplaySubscriptions(registry: map<string, Listener>, rejoined: set<string>) returns (installed: map<string, Listener>)
    ensures installed == Replayed(registry, rejoined)
  {
    installed := map[];
    var todo := registry.Keys;
    while todo != {}
      invariant todo <= registry.Keys
      invariant installed == map room | room in registry && room in rejoined && room !in todo :: registry[room]
      decreases todo
    {
      var room :| room in todo;
      if room in rejoined {
        installed := installed[room := registry[room]];
      }
      todo := todo - {room};
    }
  }

  predicate At(w: World, l: Listener, stage: Stage) {
    l in w.callbacks && w.callbacks[l].stage == stage
  }

  predicate InRoom(w: World, l: Listener, room: string) {
    l in w.callbacks && w.callbacks[l].room == room
  }

  predicate InstalledOn(w: World, k: nat, room: string, l: Listener) {
    k in w.sockets && room in w.sockets[k] && w.sockets[k][room] == l
  }

  function Staged(w: World, l: Listener, stage: Stage): World
    requires l in w.callbacks
  {
    w.(callbacks := w.callbacks[l := w.callbacks[l].(stage := stage)])
  }

  /** The callback an event runs, and the id it is handed. */
  function Reached(w: World, e: Event): Option<Delivery> {
    match e
    case Call(k) => if k in w.held then Some(w.held[k]) else None
    case Deliver(l, id) => if At(w, l, Polling) then Some(Delivery(l, id)) else None
    case _ => None
  }

  /** Hands a callback one more message; only pushes count as activity. */
  function Hand(w: World, d: Delivery, pushes: nat): World {
    if d.listener !in w.callbacks then w
    else
      var c := w.callbacks[d.listener];
      w.(callbacks := w.callbacks[d.listener := c.(activity := c.activity + pushes, arrivals := c.arrivals + [d.id])])
  }

  function Install(m: map<string, Listener>, room: string, l: Listener): map<string, Listener> {
    m[room := l]
  }

  function ApplyListen(w: World, room: string, l: Listener): World {
    if l in w.callbacks then w
    else
      var added := w.(callbacks := w.callbacks[l := Callback(room, Installed, 0, Gate(0, 0), [])]);
      match w.current
      case Some(k) => if k in w.sockets then added.(sockets := w.sockets[k := Install(w.sockets[k], room, l)]) else added
      case None => added
  }

  /** The task reads the counter as it starts, and again when it has delivered a page. */
  function Rested(w: World, l: Listener, skipped: nat): World
    requires l in w.callbacks
  {
    var c := w.callbacks[l];
    w.(callbacks := w.callbacks[l := c.(stage := Asleep, gate := Gate(c.activity, skipped))])
  }

  /** The task ends at the first interval that finds its room left; otherwise it stands down or polls. */
  function ApplyTick(w: World, l: Listener): World {
    if !At(w, l, Asleep) then w
    else
      var c := w.callbacks[l];
      if c.room !in w.joined then Staged(w, l, Ended)
      else if StandsDown(c.gate, c.activity) then Rested(w, l, c.gate.skipped + 1)
      else w.(callbacks := w.callbacks[l := c.(stage := Polling, gate := Gate(c.activity, 0))])
  }

  function Unsubscribed(sockets: map<nat, map<string, Listener>>, current: Option<nat>, room: string): map<nat, map<string, Listener>> {
    if current.Some? && current.value in sockets then sockets[current.value := sockets[current.value] - {room}] else sockets
  }

  function Cleared(w: World, k: nat): map<nat, map<string, Listener>> {
    w.sockets[k := map[]]
  }

  function Apply(w: World, e: Event): World {
    match e
    case Listen(room, l) => ApplyListen(w, room, l)
    case Register(l) =>
      if At(w, l, Installed) then Staged(w, l, Registered).(registry := w.registry[w.callbacks[l].room := l]) else w
    case Join(l) =>
      if At(w, l, Registered) then Staged(w, l, Joined).(joined := w.joined + {w.callbacks[l].room}) else w
    case Spawn(l) => if At(w, l, Joined) then Rested(w, l, 0) else w
    case Tick(l) => ApplyTick(w, l)
    case Deliver(l, id) => if At(w, l, Polling) then Hand(w, Delivery(l, id), 0) else w
    case Finish(l) => if At(w, l, Polling) then Rested(w, l, w.callbacks[l].gate.skipped) else w
    case JoinRoom(room) => w.(joined := w.joined + {room})
    case Unjoin(room) => w.(joined := w.joined - {room})
    case Unregister(room) => w.(registry := w.registry - {room})
    case Unsubscribe(room) => w.(sockets := Unsubscribed(w.sockets, w.current, room))
    case Connect(k, rejoined) =>
      if k in w.sockets then w else w.(sockets := w.sockets[k := Replayed(w.registry, rejoined)], ready := w.ready + {k})
    case Swap(k) => if k in w.ready then w.(current := Some(k), ready := w.ready - {k}) else w
    case Disconnect =>
      if w.current.Some? then w.(sockets := Cleared(w, w.current.value), current := None) else w
    case Drop(k) => if k in w.sockets && k !in w.ready && w.current != Some(k) then w.(sockets := Cleared(w, k)) else w
    case Fetch(k, room, id) =>
      if k in w.sockets && room in w.sockets[k] && k !in w.held
      then w.(held := w.held[k := Delivery(w.sockets[k][room], id)]) else w
    case Call(k) => if k in w.held then Hand(w, w.held[k], 1).(held := w.held - {k}) else w
  }

  function Run(w: World, events: seq<Event>): World
    decreases |events|
  {
    if events == [] then w else Run(Apply(w, events[0]), events[1..])
  }

  /** What an event hands to the room's callbacks. */
  function Handed(w: World, e: Event, room: string): seq<Delivery> {
    match Reached(w, e)
    case Some(d) => if InRoom(w, d.listener, room) then [d] else []
    case None => []
  }

  /** Every delivery a run makes to a callback of the room, all paths merged. */
  function Deliveries(w: World, events: seq<Event>, room: string): seq<Delivery>
    decreases |events|
  {
    if events == [] then [] else Handed(w, events[0], room) + Deliveries(Apply(w, events[0]), events[1..], room)
  }

  function Passed(seen: seq<string>, id: string): seq<string> {
    if id in Window(WINDOW, seen) then [] else [id]
  }

  function Arrivals(w: World, l: Listener): seq<string> {
    if l in w.callbacks then w.callbacks[l].arrivals else []
  }

  function StepFirings(w: World, e: Event, room: string): seq<string> {
    var ds := Handed(w, e, room);
    if ds == [] then [] else Passed(Arrivals(w, ds[0].listener), ds[0].id)
  }

  /** The ids for which the user's callback for the room ran, over all the callbacks it was wrapped in. */
  function Firings(w: World, events: seq<Event>, room: string): seq<string>
    decreases |events|
  {
    if events == [] then [] else StepFirings(w, events[0], room) + Firings(Apply(w, events[0]), events[1..], room)
  }

  function IdsOf(ds: seq<Delivery>): seq<string> {
    seq(|ds|, i requires 0 <= i < |ds| => ds[i].id)
  }

  lemma {:induction false} RunConcat(w: World, a: seq<Event>, b: seq<Event>, room: string)
    ensures Run(w, a + b) == Run(Run(w, a), b)
    ensures Firings(w, a + b, room) == Firings(w, a, room) + Firings(Run(w, a), b, room)
    decreases |a|
  {
    if a == [] {
      assert a + b == b;
    } else {
      assert (a + b)[0] == a[0] && (a + b)[1..] == a[1..] + b;
      RunConcat(Apply(w, a[0]), a[1..], b, room);
      Associates(StepFirings(w, a[0], room), Firings(Apply(w, a[0]), a[1..], room), Firings(Run(w, a), b, room));
    }
  }

  lemma Associates<T>(a: seq<T>, b: seq<T>, c: seq<T>)
    ensures (a + b) + c == a + (b + c)
  {
  }

  // ---- What every step keeps ----

  ghost predicate RoomsMatch(w: World, m: map<string, Listener>) {
    forall room :: room in m ==> InRoom(w, m[room], room)
  }

  /** Wherever a room's callback is kept, it is one made for that room; connections in use are open. */
  ghost predicate Inv(w: World) {
    && RoomsMatch(w, w.registry)
    && (forall k :: k in w.sockets ==> RoomsMatch(w, w.sockets[k]))
    && (forall k :: k in w.held ==> k in w.sockets && w.held[k].listener in w.callbacks)
    && w.ready <= w.sockets.Keys && (w.current.Some? ==> w.current.value in w.sockets && w.current.value !in w.ready)
  }

  lemma StepKeepsRooms(w: World, e: Event)
    ensures forall l :: l in w.callbacks ==> InRoom(Apply(w, e), l, w.callbacks[l].room)
    ensures forall l :: l in Apply(w, e).callbacks && l !in w.callbacks ==> e.Listen? && e.l == l && InRoom(Apply(w, e), l, e.room)
  {
  }

  /** A callback keeps the room of the `listen` call that made it. */
  lemma {:induction false} RoomsPersist(w: World, events: seq<Event>, l: Listener)
    requires l in w.callbacks
    ensures InRoom(Run(w, events), l, w.callbacks[l].room)
    decreases |events|
  {
    if events != [] {
      StepKeepsRooms(w, events[0]);
      RoomsPersist(Apply(w, events[0]), events[1..], l);
    }
  }

  lemma StepKeepsInv(w: World, e: Event)
    requires Inv(w)
    ensures Inv(Apply(w, e))
  {
    StepKeepsRooms(w, e);
    RegistryStaysMatched(w, e);
    var w' := Apply(w, e);
    forall k | k in w'.sockets ensures RoomsMatch(w', w'.sockets[k]) {
      SocketStaysMatched(w, e, k);
    }
  }

  lemma RegistryStaysMatched(w: World, e: Event)
    requires Inv(w)
    ensures RoomsMatch(Apply(w, e), Apply(w, e).registry)
  {
    StepKeepsRooms(w, e);
  }

  lemma SocketStaysMatched(w: World, e: Event, k: nat)
    requires Inv(w) && k in Apply(w, e).sockets
    ensures RoomsMatch(Apply(w, e), Apply(w, e).sockets[k])
  {
    StepKeepsRooms(w, e);
    if k in w.sockets {
      assert RoomsMatch(w, w.sockets[k]);
    }
  }

  lemma {:induction false} RunKeepsInv(w: World, events: seq<Event>)
    requires Inv(w)
    ensures Inv(Run(w, events))
    decreases |events|
  {
    if events != [] {
      StepKeepsInv(w, events[0]);
      RunKeepsInv(Apply(w, events[0]), events[1..]);
    }
  }

  // ---- The life of a poll task ----

  /** Every interval that ended while the task slept found its room joined. */
  predicate TicksFoundJoined(w: World, events: seq<Event>, l: Listener)
    decreases |events|
  {
    events == [] ||
    (var e := events[0];
     && (e.Tick? && e.l == l && At(w, l, Asleep) ==> w.callbacks[l].room in w.joined)
     && TicksFoundJoined(Apply(w, e), events[1..], l))
  }

  lemma EndedStays(w: World, e: Event, l: Listener)
    ensures At(w, l, Ended) ==> At(Apply(w, e), l, Ended)
    ensures At(Apply(w, e), l, Ended) && !At(w, l, Ended) <==>
      e.Tick? && e.l == l && At(w, l, Asleep) && w.callbacks[l].room !in w.joined
  {
  }

  lemma {:induction false} EndedForGood(w: World, events: seq<Event>, l: Listener)
    requires At(w, l, Ended)
    ensures At(Run(w, events), l, Ended)
    decreases |events|
  {
    if events != [] {
      EndedStays(w, events[0], l);
      EndedForGood(Apply(w, events[0]), events[1..], l);
    }
  }

  /** A task has ended after a run exactly when one of its intervals found the room left: leaving alone ends none. */
  lemma {:induction false} TaskEndsIff(w: World, events: seq<Event>, l: Listener)
    requires !At(w, l, Ended)
    ensures At(Run(w, events), l, Ended) <==> !TicksFoundJoined(w, events, l)
    decreases |events|
  {
    if events != [] {
      EndedStays(w, events[0], l);
      if At(Apply(w, events[0]), l, Ended) {
        EndedForGood(Apply(w, events[0]), events[1..], l);
      } else {
        TaskEndsIff(Apply(w, events[0]), events[1..], l);
      }
    }
  }

  // ---- Every delivery fires once, while one callback gets them all ----

  lemma FiredSnoc(seen: seq<string>, id: string)
    ensures Fired(WINDOW, seen + [id]) == Fired(WINDOW, seen) + Passed(seen, id)
  {
    assert (seen + [id])[..|seen|] == seen;
  }

  ghost predicate AllTo(ds: seq<Delivery>, l: Listener) {
    forall i :: 0 <= i < |ds| ==> ds[i].listener == l
  }

  lemma ArrivalsMove(w: World, e: Event, l: Listener)
    requires Inv(w)
    ensures Arrivals(Apply(w, e), l) ==
      if Reached(w, e).Some? && Reached(w, e).value.listener == l then Arrivals(w, l) + [Reached(w, e).value.id] else Arrivals(w, l)
  {
  }

  /** One step of the room, seen from the callback that gets all its deliveries. */
  lemma StepThroughOne(w: World, e: Event, room: string, l: Listener)
    requires Inv(w) && AllTo(Handed(w, e, room), l) && (l in w.callbacks ==> InRoom(w, l, room))
    requires l in Apply(w, e).callbacks ==> InRoom(Apply(w, e), l, room)
    ensures Arrivals(Apply(w, e), l) == Arrivals(w, l) + IdsOf(Handed(w, e, room))
    ensures Fired(WINDOW, Arrivals(Apply(w, e), l)) == Fired(WINDOW, Arrivals(w, l)) + StepFirings(w, e, room)
  {
    var ds := Handed(w, e, room);
    ArrivalsMove(w, e, l);
    if ds != [] {
      assert ds[0].listener == l;
      FiredSnoc(Arrivals(w, l), ds[0].id);
    }
  }

  /**
   However the deliveries come, by whatever connections and polls: while one callback gets them all, the user
   sees what one window passes on.
   */
  lemma {:induction false} OneWindow(w: World, events: seq<Event>, room: string, l: Listener)
    requires Inv(w) && AllTo(Deliveries(w, events, room), l)
    requires l in Run(w, events).callbacks ==> InRoom(Run(w, events), l, room)
    ensures Arrivals(Run(w, events), l) == Arrivals(w, l) + IdsOf(Deliveries(w, events, room))
    ensures Fired(WINDOW, Arrivals(Run(w, events), l)) == Fired(WINDOW, Arrivals(w, l)) + Firings(w, events, room)
    decreases |events|
  {
    if events == [] { return; }
    var e, rest := events[0], events[1..];
    var w' := Apply(w, e);
    var now, later := Handed(w, e, room), Deliveries(w', rest, room);
    assert Deliveries(w, events, room) == now + later && Run(w, events) == Run(w', rest);
    SplitAllTo(now, later, l);
    StepKeepsInv(w, e);
    StaysInRoom(w, events, l, room);
    StepThroughOne(w, e, room, l);
    OneWindow(w', rest, room, l);
    Associates(Arrivals(w, l), IdsOf(now), IdsOf(later));
    Associates(Fired(WINDOW, Arrivals(w, l)), StepFirings(w, e, room), Firings(w', rest, room));
  }

  lemma SplitAllTo(now: seq<Delivery>, later: seq<Delivery>, l: Listener)
    requires AllTo(now + later, l)
    ensures AllTo(now, l) && AllTo(later, l) && IdsOf(now + later) == IdsOf(now) + IdsOf(later)
  {
    assert forall i :: 0 <= i < |now| ==> now[i] == (now + later)[i];
    assert forall i :: 0 <= i < |later| ==> later[i] == (now + later)[|now| + i];
  }

  lemma StaysInRoom(w: World, events: seq<Event>, l: Listener, room: string)
    requires events != [] && (l in Run(w, events).callbacks ==> InRoom(Run(w, events), l, room))
    ensures l in w.callbacks ==> InRoom(w, l, room)
    ensures l in Apply(w, events[0]).callbacks ==> InRoom(Apply(w, events[0]), l, room)
  {
    if l in w.callbacks { RoomsPersist(w, events, l); }
    if l in Apply(w, events[0]).callbacks { RoomsPersist(Apply(w, events[0]), events[1..], l); }
  }

  /** Every listener the room has had is `l`. */
  ghost predicate OnlyListener(w: World, room: string, l: Listener) {
    forall other :: InRoom(w, other, room) ==> other == l
  }

  lemma {:induction false} OneListenerGetsAll(w: World, events: seq<Event>, room: string, l: Listener)
    requires OnlyListener(Run(w, events), room, l)
    ensures OnlyListener(w, room, l) && AllTo(Deliveries(w, events, room), l)
    decreases |events|
  {
    if events != [] {
      StepKeepsRooms(w, events[0]);
      OneListenerGetsAll(Apply(w, events[0]), events[1..], room, l);
      assert OnlyListener(w, room, l) by {
        forall other | InRoom(w, other, room) ensures other == l {
          assert InRoom(Apply(w, events[0]), other, room);
        }
      }
    }
  }

  /** A room listened to once has one window, shared by every push, poll and reconnect. */
  lemma OneWindowPerRoom(events: seq<Event>, room: string, l: Listener)
    requires InRoom(Run(START, events), l, room) && OnlyListener(Run(START, events), room, l)
    ensures Firings(START, events, room) == Fired(WINDOW, IdsOf(Deliveries(START, events, room)))
    ensures Arrivals(Run(START, events), l) == IdsOf(Deliveries(START, events, room))
  {
    OneListenerGetsAll(START, events, room, l);
    OneWindow(START, events, room, l);
    assert [] + IdsOf(Deliveries(START, events, room)) == IdsOf(Deliveries(START, events, room));
    assert [] + Firings(START, events, room) == Firings(START, events, room);
  }

  /**
   Exactly once, end to end. While one callback gets all of a room's deliveries, over any interleaving of
   pushes, polls and any number of reconnects: any two firings at most 10000 apart carry different ids,
   and while no more than 10000 ids are in play each fires once.
   */
  lemma ExactlyOnce(events: seq<Event>, room: string, l: Listener, i: nat, j: nat)
    requires InRoom(Run(START, events), l, room) && OnlyListener(Run(START, events), room, l)
    requires i < j < |Firings(START, events, room)|
    ensures j - i <= 10000 || |Elements(IdsOf(Deliveries(START, events, room)))| <= 10000 ==>
      Firings(START, events, room)[i] != Firings(START, events, room)[j]
  {
    OneWindowPerRoom(events, room, l);
    var trace := IdsOf(Deliveries(START, events, room));
    if j - i <= WINDOW {
      ExactlyOnceWindow(WINDOW, trace, i, j);
    }
    if |Elements(trace)| <= WINDOW {
      SmallTracesAreDeduplicated(WINDOW, trace);
    }
  }

  // ---- No delivery is lost, whatever was listened to ----

  ghost predicate AllFired(w: World, room: string, past: seq<string>) {
    forall l, id :: InRoom(w, l, room) && id in Arrivals(w, l) ==> id in past
  }

  lemma StepFiresWhatItDelivers(w: World, e: Event, room: string, past: seq<string>)
    requires Inv(w) && AllFired(w, room, past)
    ensures AllFired(Apply(w, e), room, past + StepFirings(w, e, room))
    ensures forall d :: d in Handed(w, e, room) ==> d.id in past + StepFirings(w, e, room)
    ensures forall id :: id in StepFirings(w, e, room) ==> id in IdsOf(Handed(w, e, room))
  {
    var ds := Handed(w, e, room);
    if ds != [] {
      var seen := Arrivals(w, ds[0].listener);
      WindowHolds(seen, ds[0].id);
      assert ds[0].id in past + StepFirings(w, e, room);
      assert IdsOf(ds)[0] == ds[0].id;
    }
    forall l, id | InRoom(Apply(w, e), l, room) && id in Arrivals(Apply(w, e), l)
      ensures id in past + StepFirings(w, e, room)
    {
      StepKeepsRooms(w, e);
      ArrivalsMove(w, e, l);
    }
  }

  lemma WindowHolds(seen: seq<string>, id: string)
    ensures id in Window(WINDOW, seen) ==> id in seen
  {
    WindowIsRecentFirings(WINDOW, seen);
    FiredAreTheArrivals(WINDOW, seen);
    assert id in Fired(WINDOW, seen) ==> id in Elements(seen);
  }

  lemma {:induction false} DeliveriesFire(w: World, events: seq<Event>, room: string, past: seq<string>)
    requires Inv(w) && AllFired(w, room, past)
    ensures forall d :: d in Deliveries(w, events, room) ==> d.id in past + Firings(w, events, room)
    ensures forall id :: id in Firings(w, events, room) ==> id in IdsOf(Deliveries(w, events, room))
    decreases |events|
  {
    if events != [] {
      var e, rest := events[0], events[1..];
      StepKeepsInv(w, e);
      StepFiresWhatItDelivers(w, e, room, past);
      DeliveriesFire(Apply(w, e), rest, room, past + StepFirings(w, e, room));
      Associates(past, StepFirings(w, e, room), Firings(Apply(w, e), rest, room));
      var now, later := Handed(w, e, room), Deliveries(Apply(w, e), rest, room);
      assert IdsOf(now + later) == IdsOf(now) + IdsOf(later);
    }
  }

  /** Over every run, with any number of listens, leaves and reconnects: the user has seen exactly the ids delivered. */
  lemma EveryDeliveryFires(events: seq<Event>, room: string)
    ensures Elements(Firings(START, events, room)) == Elements(IdsOf(Deliveries(START, events, room)))
  {
    DeliveriesFire(START, events, room, []);
    var ds := Deliveries(START, events, room);
    assert [] + Firings(START, events, room) == Firings(START, events, room);
    forall id | id in IdsOf(ds) ensures id in Firings(START, events, room) {
      var i :| 0 <= i < |ds| && IdsOf(ds)[i] == id;
      assert ds[i] in ds;
    }
  }
}
