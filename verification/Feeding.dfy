/** When a new message can reach the user twice: the exact boundary, and how listening again crosses it. */
module Feeding {
  import opened Prelude
  import opened DedupWindow
  import opened PollBackstop
  import opened Subscriptions

  predicate NoListen(events: seq<Event>, room: string) {
    forall i :: 0 <= i < |events| ==> !(events[i].Listen? && events[i].room == room)
  }

  /** The task behind the callback can poll yet: whoever joins the room, in time, wakes a sleeping one. */
  predicate TaskFeeds(w: World, room: string, l: Listener) {
    InRoom(w, l, room) && w.callbacks[l].stage != Ended
  }

  /** By its task, by the registry and the next reconnect, or by a connection it is installed on. */
  ghost predicate CanBeFed(w: World, room: string, l: Listener) {
    InRoom(w, l, room)
    && (TaskFeeds(w, room, l) || (room in w.registry && w.registry[room] == l) || exists k :: InstalledOn(w, k, room, l))
  }

  ghost predicate TwoFed(w: World, room: string) {
    exists a, b :: a != b && CanBeFed(w, room, a) && CanBeFed(w, room, b)
  }

  ghost predicate OnlyFed(w: World, room: string, l: Listener) {
    forall other :: CanBeFed(w, room, other) ==> other == l
  }

  ghost predicate NotHeld(w: World, id: string) {
    forall k :: k in w.held ==> w.held[k].id != id
  }

  /** No callback of the room has been handed the id, and no dispatcher is about to. */
  ghost predicate Unseen(w: World, room: string, id: string) {
    NotHeld(w, id) && forall l :: InRoom(w, l, room) ==> id !in Arrivals(w, l)
  }

  /** Two firings of the id lie more than a window apart. */
  ghost predicate Spaced(firings: seq<string>, id: string) {
    forall i, j :: 0 <= i < j < |firings| && firings[i] == id && firings[j] == id ==> j - i > WINDOW
  }

  // ---- With one callback fed, firings stay a window apart ----

  lemma InstalledComesFrom(w: World, e: Event, k: nat, room: string, l: Listener)
    requires !(e.Listen? && e.room == room) && InstalledOn(Apply(w, e), k, room, l)
    ensures InstalledOn(w, k, room, l) || (room in w.registry && w.registry[room] == l)
  {
  }

  lemma TaskComesFrom(w: World, e: Event, room: string, l: Listener)
    requires !(e.Listen? && e.room == room) && TaskFeeds(Apply(w, e), room, l)
    ensures TaskFeeds(w, room, l)
  {
    StepKeepsRooms(w, e);
  }

  /** Without a new `listen`, no callback becomes one that can be fed. */
  lemma StepFeedsNobodyNew(w: World, e: Event, room: string, l: Listener)
    requires Inv(w) && !(e.Listen? && e.room == room) && CanBeFed(Apply(w, e), room, l)
    ensures CanBeFed(w, room, l)
  {
    var w' := Apply(w, e);
    if TaskFeeds(w', room, l) {
      TaskComesFrom(w, e, room, l);
    } else if k :| InstalledOn(w', k, room, l) {
      InstalledComesFrom(w, e, k, room, l);
      assert room in w.registry && w.registry[room] == l ==> InRoom(w, l, room);
      assert InstalledOn(w, k, room, l) ==> RoomsMatch(w, w.sockets[k]) && InRoom(w, l, room);
    } else {
      RegisteredComesFrom(w, e, room, l);
    }
  }

  lemma RegisteredComesFrom(w: World, e: Event, room: string, l: Listener)
    requires Inv(w) && room in Apply(w, e).registry && Apply(w, e).registry[room] == l
    ensures CanBeFed(w, room, l)
  {
  }

  /** Only `l` has been handed the id or is about to be. */
  ghost predicate OnlySeenBy(w: World, room: string, id: string, l: Listener) {
    && (forall x :: InRoom(w, x, room) && id in Arrivals(w, x) ==> x == l)
    && (forall k :: k in w.held && w.held[k].id == id && InRoom(w, w.held[k].listener, room) ==> w.held[k].listener == l)
  }

  lemma HandedToNoOther(w: World, e: Event, room: string, id: string, l: Listener)
    requires OnlyFed(w, room, l) && OnlySeenBy(w, room, id, l)
    ensures forall d :: d in Handed(w, e, room) && d.id == id ==> d.listener == l
  {
    if e.Deliver? && At(w, e.l, Polling) && InRoom(w, e.l, room) {
      assert CanBeFed(w, room, e.l);
    }
  }

  /** What a dispatcher newly holds was installed on its connection. */
  lemma HeldComesFrom(w: World, e: Event, k: nat)
    requires k in Apply(w, e).held
    ensures k in w.held ==> Apply(w, e).held[k] == w.held[k]
    ensures k !in w.held ==> e.Fetch? && InstalledOn(w, k, e.room, Apply(w, e).held[k].listener)
  {
  }

  lemma HeldForNoOther(w: World, e: Event, room: string, id: string, l: Listener, k: nat)
    requires Inv(w) && OnlyFed(w, room, l) && OnlySeenBy(w, room, id, l)
    requires k in Apply(w, e).held && Apply(w, e).held[k].id == id && InRoom(Apply(w, e), Apply(w, e).held[k].listener, room)
    ensures Apply(w, e).held[k].listener == l
  {
    StepKeepsRooms(w, e);
    HeldComesFrom(w, e, k);
    var x := Apply(w, e).held[k].listener;
    assert InRoom(w, x, room);
    if k !in w.held {
      assert InRoom(w, x, e.room);
      assert CanBeFed(w, room, x);
    }
  }

  lemma StepShowsItToNoOther(w: World, e: Event, room: string, id: string, l: Listener)
    requires Inv(w) && OnlyFed(w, room, l) && OnlySeenBy(w, room, id, l)
    ensures OnlySeenBy(Apply(w, e), room, id, l)
    ensures forall d :: d in Handed(w, e, room) && d.id == id ==> d.listener == l
  {
    StepKeepsRooms(w, e);
    HandedToNoOther(w, e, room, id, l);
    var w' := Apply(w, e);
    forall k | k in w'.held && w'.held[k].id == id && InRoom(w', w'.held[k].listener, room) ensures w'.held[k].listener == l {
      HeldForNoOther(w, e, room, id, l, k);
    }
    forall x | InRoom(w', x, room) && id in Arrivals(w', x) ensures x == l {
      ArrivalsMove(w, e, x);
    }
  }

  /** Wherever the id is among the last firings of the room, it is as recent among those of the one callback. */
  ghost predicate Covered(past: seq<string>, own: seq<string>, id: string) {
    forall n: nat :: id in LastUpTo(past, n) ==> id in LastUpTo(own, n)
  }

  lemma LastOfSnoc(s: seq<string>, x: string, n: nat, id: string)
    ensures id in LastUpTo(s + [x], n) <==> n > 0 && (x == id || id in LastUpTo(s, n - 1))
    ensures n > 0 && id in LastUpTo(s, n - 1) ==> id in LastUpTo(s, n)
  {
    if n > 0 {
      var t := s + [x];
      assert LastUpTo(t, n) == LastUpTo(s, n - 1) + [x];
      if |s| > n - 1 && id in LastUpTo(s, n - 1) {
        assert |s| > n ==> LastUpTo(s, n) == [s[|s| - n]] + LastUpTo(s, n - 1);
      }
    }
  }

  lemma CoveredSnoc(past: seq<string>, own: seq<string>, x: string, id: string)
    requires Covered(past, own, id)
    ensures Covered(past + [x], own + [x], id)
    ensures x != id ==> Covered(past + [x], own, id)
  {
    forall n: nat | id in LastUpTo(past + [x], n)
      ensures id in LastUpTo(own + [x], n) && (x != id ==> id in LastUpTo(own, n))
    {
      LastOfSnoc(past, x, n, id);
      LastOfSnoc(own, x, n, id);
    }
  }

  lemma SpacedSnoc(past: seq<string>, x: string, id: string)
    requires Spaced(past, id) && (x == id ==> id !in LastUpTo(past, WINDOW))
    ensures Spaced(past + [x], id)
  {
    forall i, j | 0 <= i < j < |past + [x]| && (past + [x])[i] == id && (past + [x])[j] == id ensures j - i > WINDOW {
      if j == |past| && j - i <= WINDOW {
        RecentContains(past, WINDOW, i);
      }
    }
  }

  lemma StepStaysSpaced(w: World, e: Event, room: string, id: string, l: Listener, past: seq<string>)
    requires Inv(w) && !(e.Listen? && e.room == room) && OnlyFed(w, room, l) && OnlySeenBy(w, room, id, l)
    requires Covered(past, Fired(WINDOW, Arrivals(w, l)), id) && Spaced(past, id)
    requires l in w.callbacks ==> InRoom(w, l, room)
    ensures Covered(past + StepFirings(w, e, room), Fired(WINDOW, Arrivals(Apply(w, e), l)), id)
    ensures Spaced(past + StepFirings(w, e, room), id)
  {
    StepShowsItToNoOther(w, e, room, id, l);
    ArrivalsMove(w, e, l);
    var ds, own := Handed(w, e, room), Fired(WINDOW, Arrivals(w, l));
    if ds == [] {
      assert past + [] == past;
      assert Arrivals(Apply(w, e), l) == Arrivals(w, l);
      return;
    }
    var d := ds[0];
    assert d in ds;
    CoveredSnoc(past, own, d.id, id);
    if d.listener == l {
      FiredSnoc(Arrivals(w, l), d.id);
      WindowIsRecentFirings(WINDOW, Arrivals(w, l));
    }
    if Passed(Arrivals(w, d.listener), d.id) == [] {
      assert past + [] == past && own + [] == own;
    } else {
      SpacedSnoc(past, d.id, id);
    }
  }

  lemma {:induction false} StaysSpaced(w: World, events: seq<Event>, room: string, id: string, l: Listener, past: seq<string>)
    requires Inv(w) && NoListen(events, room) && OnlyFed(w, room, l) && OnlySeenBy(w, room, id, l)
    requires Covered(past, Fired(WINDOW, Arrivals(w, l)), id) && Spaced(past, id) && InRoom(w, l, room)
    ensures Spaced(past + Firings(w, events, room), id)
    decreases |events|
  {
    if events == [] {
      assert past + [] == past;
      return;
    }
    var e, rest := events[0], events[1..];
    var w' := Apply(w, e);
    assert forall i :: 0 <= i < |rest| ==> rest[i] == events[i + 1];
    StepStaysSpaced(w, e, room, id, l, past);
    StepShowsItToNoOther(w, e, room, id, l);
    StepKeepsInv(w, e);
    StepKeepsRooms(w, e);
    forall x | CanBeFed(w', room, x) ensures x == l {
      StepFeedsNobodyNew(w, e, room, x);
    }
    StaysSpaced(w', rest, room, id, l, past + StepFirings(w, e, room));
    Associates(past, StepFirings(w, e, room), Firings(w', rest, room));
  }

  // ---- With two callbacks fed, a message can come twice ----

  ghost predicate KeepsFeeds(w: World, w': World, room: string) {
    forall l :: CanBeFed(w, room, l) ==> CanBeFed(w', room, l)
  }

  /** The room was handed nothing and nobody's feed was taken away. */
  ghost predicate Prepared(w: World, w': World, room: string, id: string) {
    Inv(w') && KeepsFeeds(w, w', room) && NotHeld(w', id) && forall l :: Arrivals(w', l) == Arrivals(w, l)
  }

  ghost predicate Prepares(w: World, events: seq<Event>, room: string, id: string) {
    NoListen(events, room) && Prepared(w, Run(w, events), room, id) && Firings(w, events, room) == []
  }

  /** Nobody's feed was taken away, and of those who had not seen the id only `x` has. */
  ghost predicate Fed(w: World, w': World, room: string, x: Listener, id: string) {
    && Inv(w') && KeepsFeeds(w, w', room) && NotHeld(w', id)
    && forall l :: l != x && id !in Arrivals(w, l) ==> id !in Arrivals(w', l)
  }

  /** Steps that make the user's callback run for the id, through `x` alone, after at most one other firing. */
  ghost predicate Feeds(w: World, events: seq<Event>, room: string, x: Listener, id: string) {
    var fired := Firings(w, events, room);
    && NoListen(events, room) && Fed(w, Run(w, events), room, x, id)
    && 1 <= |fired| <= 2 && fired[|fired| - 1] == id
  }

  lemma FedAfterPreparation(w: World, mid: World, w': World, room: string, x: Listener, id: string)
    requires Prepared(w, mid, room, id) && Fed(mid, w', room, x, id)
    ensures Fed(w, w', room, x, id)
  {
  }

  lemma PrepareThenFeed(w: World, a: seq<Event>, b: seq<Event>, room: string, x: Listener, id: string)
    requires Prepares(w, a, room, id) && Feeds(Run(w, a), b, room, x, id)
    ensures Feeds(w, a + b, room, x, id)
  {
    RunConcat(w, a, b, room);
    assert [] + Firings(Run(w, a), b, room) == Firings(Run(w, a), b, room);
    FedAfterPreparation(w, Run(w, a), Run(w, a + b), room, x, id);
  }

  lemma PrepareMore(w: World, a: seq<Event>, b: seq<Event>, room: string, id: string)
    requires Prepares(w, a, room, id) && Prepares(Run(w, a), b, room, id)
    ensures Prepares(w, a + b, room, id)
  {
    RunConcat(w, a, b, room);
    assert Firings(w, a, room) + [] == Firings(w, a, room);
  }

  lemma OneStep(w: World, e: Event, room: string)
    ensures Run(w, [e]) == Apply(w, e) && Firings(w, [e], room) == StepFirings(w, e, room)
  {
    assert [e][1..] == [];
    assert StepFirings(w, e, room) + [] == StepFirings(w, e, room);
  }

  /**
   Joining the room, reconnecting, and going on with a `listen` call or a task of the room, while what the
   registry has is installed somewhere.
   */
  ghost predicate Preparatory(w: World, e: Event, room: string) {
    || e.Connect?
    || e.Join?
    || e.Spawn?
    || e.JoinRoom?
    || (e.Register? && (room in w.registry ==> exists k :: InstalledOn(w, k, room, w.registry[room])))
    || (e.Tick? && InRoom(w, e.l, room) && room in w.joined)
  }

  lemma StepPrepares(w: World, e: Event, room: string, id: string)
    requires Inv(w) && NotHeld(w, id) && Preparatory(w, e, room)
    ensures Prepares(w, [e], room, id)
  {
    OneStep(w, e, room);
    StepKeepsInv(w, e);
    StepKeepsRooms(w, e);
    var w' := Apply(w, e);
    forall l ensures Arrivals(w', l) == Arrivals(w, l) {
      ArrivalsMove(w, e, l);
    }
    forall l | CanBeFed(w, room, l) ensures CanBeFed(w', room, l) {
      StepKeepsFeed(w, e, room, l);
    }
  }

  lemma StepKeepsFeed(w: World, e: Event, room: string, l: Listener)
    requires Inv(w) && CanBeFed(w, room, l) && Preparatory(w, e, room)
    ensures CanBeFed(Apply(w, e), room, l)
  {
    var w' := Apply(w, e);
    StepKeepsRooms(w, e);
    if TaskFeeds(w, room, l) {
      StepKeepsTask(w, e, room, l);
    } else if k :| InstalledOn(w, k, room, l) {
      StepKeepsInstalled(w, e, k, room, l);
    }
  }

  lemma StepKeepsInstalled(w: World, e: Event, k: nat, room: string, l: Listener)
    requires Preparatory(w, e, room) && InstalledOn(w, k, room, l)
    ensures InstalledOn(Apply(w, e), k, room, l)
  {
  }

  lemma StepKeepsTask(w: World, e: Event, room: string, l: Listener)
    requires Preparatory(w, e, room) && TaskFeeds(w, room, l)
    ensures TaskFeeds(Apply(w, e), room, l)
  {
    StepKeepsRooms(w, e);
  }

  lemma FeedPolling(w: World, room: string, x: Listener, id: string)
    requires Inv(w) && NotHeld(w, id) && id !in Arrivals(w, x) && InRoom(w, x, room) && At(w, x, Polling)
    ensures Feeds(w, [Deliver(x, id)], room, x, id)
  {
    var e := Deliver(x, id);
    OneStep(w, e, room);
    StepKeepsInv(w, e);
    WindowHolds(Arrivals(w, x), id);
    HandingKeepsFeeds(w, e, room);
    forall l | l != x ensures Arrivals(Apply(w, e), l) == Arrivals(w, l) {
      ArrivalsMove(w, e, l);
    }
  }

  lemma HandingKeepsFeeds(w: World, e: Event, room: string)
    requires e.Deliver? || e.Fetch? || e.Call?
    ensures KeepsFeeds(w, Apply(w, e), room)
  {
    var w' := Apply(w, e);
    forall l | CanBeFed(w, room, l) ensures CanBeFed(w', room, l) {
      if k :| InstalledOn(w, k, room, l) {
        assert InstalledOn(w', k, room, l);
      }
    }
  }

  /** One preparatory step and then a feed. */
  lemma StepThenFeed(w: World, e: Event, more: seq<Event>, room: string, x: Listener, id: string)
    requires Inv(w) && NotHeld(w, id) && Preparatory(w, e, room) && Feeds(Apply(w, e), more, room, x, id)
    ensures Feeds(w, [e] + more, room, x, id)
  {
    StepPrepares(w, e, room, id);
    OneStep(w, e, room);
    PrepareThenFeed(w, [e], more, room, x, id);
  }

  /** A preparatory step leaves everything ready for feeding the same callback. */
  lemma StepAndReady(w: World, e: Event, room: string, x: Listener, id: string)
    requires Inv(w) && NotHeld(w, id) && Preparatory(w, e, room) && id !in Arrivals(w, x) && InRoom(w, x, room)
    ensures Inv(Apply(w, e)) && NotHeld(Apply(w, e), id) && id !in Arrivals(Apply(w, e), x) && InRoom(Apply(w, e), x, room)
  {
    StepPrepares(w, e, room, id);
    OneStep(w, e, room);
    StepKeepsRooms(w, e);
  }

  /** After a quiet interval the task polls. */
  lemma FeedQuiet(w: World, room: string, x: Listener, id: string) returns (more: seq<Event>)
    requires Inv(w) && NotHeld(w, id) && id !in Arrivals(w, x) && InRoom(w, x, room) && room in w.joined && At(w, x, Asleep)
    requires w.callbacks[x].gate.lastActivity == w.callbacks[x].activity
    ensures Feeds(w, more, room, x, id)
  {
    StepAndReady(w, Tick(x), room, x, id);
    FeedPolling(Apply(w, Tick(x)), room, x, id);
    StepThenFeed(w, Tick(x), [Deliver(x, id)], room, x, id);
    more := [Tick(x)] + [Deliver(x, id)];
  }

  /** A sleeping task is woken by joining the room; it may stand down for one interval and then polls. */
  lemma FeedAsleep(w: World, room: string, x: Listener, id: string) returns (more: seq<Event>)
    requires Inv(w) && NotHeld(w, id) && id !in Arrivals(w, x) && InRoom(w, x, room) && At(w, x, Asleep)
    ensures Feeds(w, more, room, x, id)
  {
    var joined := Apply(w, JoinRoom(room));
    StepAndReady(w, JoinRoom(room), room, x, id);
    var c := joined.callbacks[x];
    if StandsDown(c.gate, c.activity) {
      StepAndReady(joined, Tick(x), room, x, id);
      more := FeedQuiet(Apply(joined, Tick(x)), room, x, id);
    } else {
      StepAndReady(joined, Tick(x), room, x, id);
      FeedPolling(Apply(joined, Tick(x)), room, x, id);
      more := [Deliver(x, id)];
    }
    StepThenFeed(joined, Tick(x), more, room, x, id);
    StepThenFeed(w, JoinRoom(room), [Tick(x)] + more, room, x, id);
    more := [JoinRoom(room)] + ([Tick(x)] + more);
  }

  lemma {:induction false} FreshSocket(used: set<nat>) returns (k: nat)
    ensures forall u :: u in used ==> u < k
  {
    k := 0;
    if used != {} {
      var u :| u in used;
      k := FreshSocket(used - {u});
      assert used == (used - {u}) + {u};
      k := if k <= u then u + 1 else k;
    }
  }

  /** A reconnect installs what the registry has. */
  lemma Reconnect(w: World, room: string, id: string) returns (k: nat)
    requires Inv(w) && NotHeld(w, id)
    ensures k !in w.sockets && Prepares(w, [Connect(k, {room})], room, id)
    ensures Run(w, [Connect(k, {room})]) == Apply(w, Connect(k, {room}))
    ensures room in w.registry ==> InstalledOn(Apply(w, Connect(k, {room})), k, room, w.registry[room])
  {
    k := FreshSocket(w.sockets.Keys);
    StepPrepares(w, Connect(k, {room}), room, id);
    OneStep(w, Connect(k, {room}), room);
  }

  function StepsToSleep(stage: Stage): nat {
    match stage case Installed => 3 case Registered => 2 case Joined => 1 case _ => 0
  }

  /** A `listen` call goes on to its end; then the task feeds. */
  lemma {:induction false} FeedByTask(w: World, room: string, x: Listener, id: string) returns (more: seq<Event>)
    requires Inv(w) && NotHeld(w, id) && id !in Arrivals(w, x) && TaskFeeds(w, room, x)
    ensures Feeds(w, more, room, x, id)
    decreases StepsToSleep(w.callbacks[x].stage)
  {
    match w.callbacks[x].stage {
      case Polling =>
        FeedPolling(w, room, x, id);
        more := [Deliver(x, id)];
      case Asleep => more := FeedAsleep(w, room, x, id);
      case Joined => more := GoOn(w, Spawn(x), room, x, id);
      case Registered => more := GoOn(w, Join(x), room, x, id);
      case Installed =>
        var k := Reconnect(w, room, id);
        var e := Connect(k, {room});
        StepAndReady(w, e, room, x, id);
        more := GoOn(Apply(w, e), Register(x), room, x, id);
        StepThenFeed(w, e, more, room, x, id);
        more := [e] + more;
    }
  }

  lemma {:induction false} GoOn(w: World, e: Event, room: string, x: Listener, id: string) returns (more: seq<Event>)
    requires Inv(w) && NotHeld(w, id) && id !in Arrivals(w, x) && TaskFeeds(w, room, x) && Preparatory(w, e, room)
    requires
      || (e == Register(x) && At(w, x, Installed))
      || (e == Join(x) && At(w, x, Registered))
      || (e == Spawn(x) && At(w, x, Joined))
    ensures Feeds(w, more, room, x, id)
    decreases StepsToSleep(w.callbacks[x].stage), 0
  {
    StepAndReady(w, e, room, x, id);
    more := FeedByTask(Apply(w, e), room, x, id);
    StepThenFeed(w, e, more, room, x, id);
    more := [e] + more;
  }

  /** Whatever a dispatcher has in its hands, calling it shows nobody the id and fires at most once. */
  lemma FinishHeld(w: World, room: string, k: nat, id: string)
    requires Inv(w) && NotHeld(w, id)
    ensures
      var free := Run(w, [Call(k)]);
      && Inv(free) && KeepsFeeds(w, free, room) && NotHeld(free, id) && k !in free.held && free.sockets == w.sockets
      && |Firings(w, [Call(k)], room)| <= 1
      && (forall l :: id !in Arrivals(w, l) ==> id !in Arrivals(free, l))
      && (forall l :: InRoom(w, l, room) ==> InRoom(free, l, room))
  {
    OneStep(w, Call(k), room);
    StepKeepsInv(w, Call(k));
    StepKeepsRooms(w, Call(k));
    HandingKeepsFeeds(w, Call(k), room);
    forall l | id !in Arrivals(w, l) ensures id !in Arrivals(Apply(w, Call(k)), l) {
      ArrivalsMove(w, Call(k), l);
    }
  }

  /** A connection's dispatcher finishes the message in its hands, then takes and hands on the new one. */
  lemma FeedBySocket(w: World, room: string, k: nat, x: Listener, id: string) returns (more: seq<Event>)
    requires Inv(w) && NotHeld(w, id) && id !in Arrivals(w, x) && InRoom(w, x, room) && InstalledOn(w, k, room, x)
    ensures Feeds(w, more, room, x, id)
  {
    var first, rest := [Call(k)], [Fetch(k, room, id)] + [Call(k)];
    FinishHeld(w, room, k, id);
    FeedByFreeSocket(Run(w, first), room, k, x, id);
    RunConcat(w, first, rest, room);
    more := first + rest;
    assert Firings(w, more, room) == Firings(w, first, room) + [id];
  }

  lemma FeedByFreeSocket(w: World, room: string, k: nat, x: Listener, id: string)
    requires Inv(w) && NotHeld(w, id) && id !in Arrivals(w, x) && InRoom(w, x, room) && InstalledOn(w, k, room, x) && k !in w.held
    ensures Feeds(w, [Fetch(k, room, id)] + [Call(k)], room, x, id)
    ensures Firings(w, [Fetch(k, room, id)] + [Call(k)], room) == [id]
  {
    var e, e' := Fetch(k, room, id), Call(k);
    var mid := Apply(w, e);
    OneStep(w, e, room);
    OneStep(mid, e', room);
    StepKeepsInv(w, e);
    StepKeepsInv(mid, e');
    HandingKeepsFeeds(w, e, room);
    HandingKeepsFeeds(mid, e', room);
    WindowHolds(Arrivals(w, x), id);
    RunConcat(w, [e], [e'], room);
    forall l | l != x ensures Arrivals(Apply(mid, e'), l) == Arrivals(w, l) {
      ArrivalsMove(w, e, l);
      ArrivalsMove(mid, e', l);
    }
  }

  lemma Feed(w: World, room: string, x: Listener, id: string) returns (more: seq<Event>)
    requires Inv(w) && NotHeld(w, id) && id !in Arrivals(w, x) && CanBeFed(w, room, x)
    ensures Feeds(w, more, room, x, id)
  {
    if TaskFeeds(w, room, x) {
      more := FeedByTask(w, room, x, id);
    } else if k :| InstalledOn(w, k, room, x) {
      more := FeedBySocket(w, room, k, x, id);
    } else {
      var k := Reconnect(w, room, id);
      var first := [Connect(k, {room})];
      more := FeedBySocket(Run(w, first), room, k, x, id);
      PrepareThenFeed(w, first, more, room, x, id);
      more := first + more;
    }
  }

  lemma BothFed(w: World, room: string, a: Listener, b: Listener, id: string) returns (more: seq<Event>)
    requires Inv(w) && Unseen(w, room, id) && a != b && CanBeFed(w, room, a) && CanBeFed(w, room, b)
    ensures NoListen(more, room) && !Spaced(Firings(w, more, room), id)
  {
    var first := Feed(w, room, a, id);
    var second := Feed(Run(w, first), room, b, id);
    more := first + second;
    RunConcat(w, first, second, room);
    var x, y := Firings(w, first, room), Firings(Run(w, first), second, room);
    assert (x + y)[|x| - 1] == id && (x + y)[|x + y| - 1] == id;
  }

  /**
   The exact boundary of exactly-once. From any reachable state, a new id can come to fire twice within one
   window, without another `listen`, exactly when two callbacks of the room can still be fed: among them every
   one whose task has not ended, since joining the room, which needs no `listen`, wakes it.
   */
  lemma TwiceIffTwoFed(before: seq<Event>, room: string, id: string)
    requires Unseen(Run(START, before), room, id)
    ensures
      var w := Run(START, before);
      (exists more :: NoListen(more, room) && !Spaced(Firings(w, more, room), id)) <==> TwoFed(w, room)
  {
    RunKeepsInv(START, before);
    var w := Run(START, before);
    if TwoFed(w, room) {
      var a, b :| a != b && CanBeFed(w, room, a) && CanBeFed(w, room, b);
      var more := BothFed(w, room, a, b, id);
    } else {
      forall more | NoListen(more, room) ensures Spaced(Firings(w, more, room), id) {
        AtMostOneFed(w, more, room, id);
      }
    }
  }

  lemma AtMostOneFed(w: World, events: seq<Event>, room: string, id: string)
    requires Inv(w) && Unseen(w, room, id) && !TwoFed(w, room) && NoListen(events, room)
    ensures Spaced(Firings(w, events, room), id)
  {
    if l :| InRoom(w, l, room) && OnlyFed(w, room, l) {
      StaysSpaced(w, events, room, id, l, []);
      assert [] + Firings(w, events, room) == Firings(w, events, room);
    } else {
      NobodyInRoom(w, events, room);
    }
  }

  /** Nothing fires for a room that was never listened to. */
  lemma {:induction false} NobodyInRoom(w: World, events: seq<Event>, room: string)
    requires Inv(w) && NoListen(events, room) && forall l :: !InRoom(w, l, room)
    ensures Firings(w, events, room) == []
    decreases |events|
  {
    if events != [] {
      StepKeepsInv(w, events[0]);
      StepKeepsRooms(w, events[0]);
      assert forall i :: 0 <= i < |events[1..]| ==> events[1..][i] == events[i + 1];
      forall l ensures !InRoom(Apply(w, events[0]), l, room) {
        assert !InRoom(w, l, room);
      }
      NobodyInRoom(Apply(w, events[0]), events[1..], room);
    }
  }

  // ---- Leaving and listening again ----

  /** The room was left and nothing feeds it any more, but `earlier`, once spawned, may not have noticed yet. */
  ghost predicate LeftRoom(w: World, room: string, earlier: Listener) {
    && room !in w.joined && room !in w.registry && (forall k :: k in w.sockets ==> room !in w.sockets[k])
    && InRoom(w, earlier, room) && w.callbacks[earlier].stage in {Asleep, Polling, Ended}
    && forall l :: InRoom(w, l, room) && l != earlier ==> At(w, l, Ended)
  }

  function ListenAgain(room: string, l: Listener): seq<Event> {
    [Listen(room, l), Register(l), Join(l), Spawn(l)]
  }

  lemma AfterListen(w: World, room: string, l: Listener)
    requires l !in w.callbacks
    ensures
      var w' := Apply(w, Listen(room, l));
      && w'.callbacks == w.callbacks[l := Callback(room, Installed, 0, Gate(0, 0), [])]
      && w'.registry == w.registry && w'.joined == w.joined
      && (forall k, x :: InstalledOn(w', k, room, x) ==> x == l || InstalledOn(w, k, room, x))
  {
  }

  /** The room is joined again and the new callback stands in the registry; nobody else has moved. */
  lemma AfterListenAgain(w: World, room: string, l: Listener)
    requires l !in w.callbacks
    ensures
      var w' := Run(w, ListenAgain(room, l));
      && w'.callbacks == w.callbacks[l := Callback(room, Asleep, 0, Gate(0, 0), [])]
      && w'.registry == Install(w.registry, room, l) && w'.joined == w.joined + {room}
      && (forall k, x :: InstalledOn(w', k, room, x) ==> x == l || InstalledOn(w, k, room, x))
  {
    AfterListen(w, room, l);
    var w1 := Apply(w, Listen(room, l));
    assert ListenAgain(room, l)[1..] == [Register(l), Join(l), Spawn(l)];
    RunThree(w1, Register(l), Join(l), Spawn(l));
    var w4 := Run(w, ListenAgain(room, l));
    assert w4.sockets == w1.sockets;
    assert w4.callbacks == w1.callbacks[l := Callback(room, Asleep, 0, Gate(0, 0), [])];
  }

  lemma RunThree(w: World, x: Event, y: Event, z: Event)
    ensures Run(w, [x, y, z]) == Apply(Apply(Apply(w, x), y), z)
  {
    RunConcat(w, [x, y], [z], "");
    RunConcat(w, [x], [y], "");
    OneStep(w, x, "");
    OneStep(Apply(w, x), y, "");
    OneStep(Apply(Apply(w, x), y), z, "");
    assert [x] + [y] == [x, y] && [x, y] + [z] == [x, y, z];
  }

  /**
   Listening again after a leave makes duplicates possible exactly when the old task has not noticed the
   leave: it is still asleep, or delivering a page, when the room becomes joined again.
   */
  lemma RelisteningCanDuplicate(w: World, room: string, earlier: Listener, l: Listener)
    requires Inv(w) && LeftRoom(w, room, earlier) && l !in w.callbacks
    ensures TwoFed(Run(w, ListenAgain(room, l)), room) <==> !At(w, earlier, Ended)
  {
    AfterListenAgain(w, room, l);
    var w' := Run(w, ListenAgain(room, l));
    assert CanBeFed(w', room, l);
    if At(w, earlier, Ended) {
      forall x | CanBeFed(w', room, x) ensures x == l {
        assert x != l ==> InRoom(w, x, room) && At(w, x, Ended);
      }
    } else {
      assert CanBeFed(w', room, earlier);
    }
  }

  // ---- When a connection agrees with the registry ----

  function EntryOf(m: map<string, Listener>, room: string): Option<Listener> {
    if room in m then Some(m[room]) else None
  }

  predicate NoSwap(events: seq<Event>, k: nat) {
    forall i :: 0 <= i < |events| ==> events[i] != Swap(k)
  }

  lemma ReadyStepKeepsItsMap(w: World, e: Event, k: nat)
    requires Inv(w) && k in w.ready && e != Swap(k)
    ensures k in Apply(w, e).ready && k in Apply(w, e).sockets && Apply(w, e).sockets[k] == w.sockets[k]
  {
  }

  /** Until it is swapped in, nothing touches what a reconnect has installed. */
  lemma {:induction false} ReadyKeepsItsMap(w: World, events: seq<Event>, k: nat)
    requires Inv(w) && k in w.ready && NoSwap(events, k)
    ensures k in Run(w, events).ready && k in Run(w, events).sockets && Run(w, events).sockets[k] == w.sockets[k]
    decreases |events|
  {
    if events != [] {
      ReadyStepKeepsItsMap(w, events[0], k);
      StepKeepsInv(w, events[0]);
      assert forall i :: 0 <= i < |events[1..]| ==> events[1..][i] == events[i + 1];
      ReadyKeepsItsMap(Apply(w, events[0]), events[1..], k);
    }
  }

  /**
   A connection swapped in after a reconnect agrees with the registry exactly as far as the registry still is,
   or has become, what the reconnect copied of it: room by room, and on the whole.
   */
  lemma SwapMatchesRegistryIff(w: World, k: nat, rejoined: set<string>, during: seq<Event>, room: string)
    requires Inv(w) && k !in w.sockets && NoSwap(during, k)
    ensures
      var mid := Run(Apply(w, Connect(k, rejoined)), during);
      var w' := Apply(mid, Swap(k));
      && w'.current == Some(k) && w'.registry == mid.registry && k in w'.sockets && w'.sockets[k] == Replayed(w.registry, rejoined)
      && (EntryOf(w'.sockets[k], room) == EntryOf(w'.registry, room) <==>
            EntryOf(mid.registry, room) == if room in rejoined then EntryOf(w.registry, room) else None)
      && (w'.sockets[k] == w'.registry <==> mid.registry == Replayed(w.registry, rejoined))
  {
    StepKeepsInv(w, Connect(k, rejoined));
    ReadyKeepsItsMap(Apply(w, Connect(k, rejoined)), during, k);
  }

  function Leave(room: string): seq<Event> {
    [Unjoin(room), Unregister(room), Unsubscribe(room)]
  }

  /** Leaving touches no callback and no task. */
  lemma AfterLeave(w: World, room: string)
    ensures
      Run(w, Leave(room)) ==
      w.(joined := w.joined - {room}, registry := w.registry - {room}, sockets := Unsubscribed(w.sockets, w.current, room))
  {
    RunThree(w, Unjoin(room), Unregister(room), Unsubscribe(room));
  }

  /** In particular, leaving a room while it is being replayed leaves it on the connection swapped in afterwards. */
  lemma LeavingDuringReconnect(w: World, room: string, k: nat, rejoined: set<string>)
    requires Inv(w) && room in w.registry && k !in w.sockets
    ensures
      var w' := Apply(Run(Apply(w, Connect(k, rejoined)), Leave(room)), Swap(k));
      && room !in w'.joined && room !in w'.registry && w'.current == Some(k) && k in w'.sockets
      && (EntryOf(w'.sockets[k], room) == EntryOf(w'.registry, room) <==> room !in rejoined)
  {
    var open := Apply(w, Connect(k, rejoined));
    AfterLeave(open, room);
    SwapMatchesRegistryIff(w, k, rejoined, Leave(room), room);
  }

  /**
   Leaving ends no task at once: after listening, leaving, listening and leaving again, with no interval in
   between, two tasks still wait to see the room joined.
   */
  lemma LeavingTwiceLeavesTwoFed(w: World, room: string, earlier: Listener, l: Listener)
    requires Inv(w) && LeftRoom(w, room, earlier) && l !in w.callbacks && !At(w, earlier, Ended)
    ensures
      var w' := Run(Run(w, ListenAgain(room, l)), Leave(room));
      TwoFed(w', room) && room !in w'.joined && room !in w'.registry
  {
    AfterListenAgain(w, room, l);
    var again := Run(w, ListenAgain(room, l));
    AfterLeave(again, room);
    var w' := Run(again, Leave(room));
    assert CanBeFed(w', room, l) && CanBeFed(w', room, earlier);
  }

  const INSTALLING: seq<Event> := [Connect(0, {}), Swap(0), Listen("r", 0)]
  const JOINING: seq<Event> := [Register(0), Join(0), Spawn(0)]
  const LEAVING: seq<Event> := Leave("r")

  lemma InstallingSettles()
    ensures
      Run(START, INSTALLING) ==
      World({}, map[], map[0 := map["r" := 0]], {}, Some(0), map[], map[0 := Callback("r", Installed, 0, Gate(0, 0), [])])
  {
    RunThree(START, Connect(0, {}), Swap(0), Listen("r", 0));
    var empty: map<string, Listener> := map[];
    assert Replayed(map[], {}) == empty;
  }

  lemma JoiningSettles(w: World, room: string, l: Listener)
    requires At(w, l, Installed) && InRoom(w, l, room)
    ensures
      Run(w, [Register(l), Join(l), Spawn(l)]) ==
      w.(joined := w.joined + {room}, registry := Install(w.registry, room, l), callbacks := w.callbacks[l := w.callbacks[l].(stage := Asleep, gate := Gate(w.callbacks[l].activity, 0))])
  {
    RunThree(w, Register(l), Join(l), Spawn(l));
  }

  lemma ListeningSettles()
    ensures
      Run(START, INSTALLING + JOINING) ==
      World({"r"}, map["r" := 0], map[0 := map["r" := 0]], {}, Some(0), map[], map[0 := Callback("r", Asleep, 0, Gate(0, 0), [])])
  {
    InstallingSettles();
    RunConcat(START, INSTALLING, JOINING, "r");
    JoiningSettles(Run(START, INSTALLING), "r", 0);
  }

  lemma LeavingSettles()
    ensures
      Run(START, INSTALLING + JOINING + LEAVING) ==
      World({}, map[], map[0 := map[]], {}, Some(0), map[], map[0 := Callback("r", Asleep, 0, Gate(0, 0), [])])
  {
    ListeningSettles();
    RunConcat(START, INSTALLING + JOINING, LEAVING, "r");
    AfterLeave(Run(START, INSTALLING + JOINING), "r");
    var sockets: map<nat, map<string, Listener>> := map[0 := map["r" := 0]];
    assert Unsubscribed(sockets, Some(0), "r") == map[0 := map[]];
  }

  /** Such a state is reached by listening and leaving; one more interval, and the task ends. */
  lemma LeavingEndsTheTaskLater()
    ensures LeftRoom(Run(START, INSTALLING + JOINING + LEAVING), "r", 0) && At(Run(START, INSTALLING + JOINING + LEAVING), 0, Asleep)
    ensures
      var w := Run(START, INSTALLING + JOINING + LEAVING + [Tick(0)]);
      LeftRoom(w, "r", 0) && At(w, 0, Ended) && 1 !in w.callbacks
  {
    LeavingSettles();
    RunConcat(START, INSTALLING + JOINING + LEAVING, [Tick(0)], "r");
    OneStep(Run(START, INSTALLING + JOINING + LEAVING), Tick(0), "r");
  }

  /** Listening again at once leaves two callbacks fed; an interval later it would have left one. */
  lemma ListeningAgainTooSoon()
    ensures TwoFed(Run(START, INSTALLING + JOINING + LEAVING + ListenAgain("r", 1)), "r")
    ensures !TwoFed(Run(START, INSTALLING + JOINING + LEAVING + [Tick(0)] + ListenAgain("r", 1)), "r")
  {
    LeavingSettles();
    LeavingEndsTheTaskLater();
    var soon, late := INSTALLING + JOINING + LEAVING, INSTALLING + JOINING + LEAVING + [Tick(0)];
    RunKeepsInv(START, soon);
    RunKeepsInv(START, late);
    RelisteningCanDuplicate(Run(START, soon), "r", 0, 1);
    RelisteningCanDuplicate(Run(START, late), "r", 0, 1);
    RunConcat(START, soon, ListenAgain("r", 1), "r");
    RunConcat(START, late, ListenAgain("r", 1), "r");
  }
}
