/** Poll tasks and connections over whole runs: what an interval decides, and that a closed connection stays silent. */
module PollTasks {
  import opened Prelude
  import opened Subscriptions

  // ---- What a poll task decides when an interval is over ----

  /** The event puts the task to sleep: it starts, has delivered its page, or stands down. */
  predicate FallsAsleep(w: World, e: Event, l: Listener) {
    At(Apply(w, e), l, Asleep) && (!At(w, l, Asleep) || e == Tick(l))
  }

  predicate NoTick(events: seq<Event>, l: Listener) {
    forall i :: 0 <= i < |events| ==> events[i] != Tick(l)
  }

  /** A connection hands the callback the message it holds for it. */
  predicate IsPush(w: World, e: Event, l: Listener) {
    e.Call? && e.socket in w.held && w.held[e.socket].listener == l
  }

  /** How many messages connections handed to the callback. */
  function Pushes(w: World, events: seq<Event>, l: Listener): nat
    decreases |events|
  {
    if events == [] then 0
    else
      var e := events[0];
      (if IsPush(w, e, l) then 1 else 0) + Pushes(Apply(w, e), events[1..], l)
  }

  /** How many intervals in a row the task has stood down. */
  function Skips(events: seq<Event>, l: Listener): nat {
    if events == [] then 0
    else
      var before, e := events[..|events| - 1], events[|events| - 1];
      var w := Run(START, before);
      if e == Tick(l) && At(w, l, Asleep) && At(Apply(w, e), l, Asleep) then Skips(before, l) + 1
      else if e == Tick(l) && At(w, l, Asleep) && At(Apply(w, e), l, Polling) then 0
      else Skips(before, l)
  }

  lemma RunSnoc(w: World, events: seq<Event>)
    requires events != []
    ensures Run(w, events) == Apply(Run(w, events[..|events| - 1]), events[|events| - 1])
  {
    var before, e := events[..|events| - 1], events[|events| - 1];
    RunConcat(w, before, [e], "");
    assert before + [e] == events;
    assert [e][1..] == [];
  }

  lemma StepCountsSkips(w: World, e: Event, l: Listener)
    requires l in Apply(w, e).callbacks
    ensures Apply(w, e).callbacks[l].gate.skipped ==
      if e == Tick(l) && At(w, l, Asleep) && At(Apply(w, e), l, Asleep) then w.callbacks[l].gate.skipped + 1
      else if e == Tick(l) && At(w, l, Asleep) && At(Apply(w, e), l, Polling) then 0
      else if e == Spawn(l) && At(w, l, Joined) then 0
      else if l in w.callbacks then w.callbacks[l].gate.skipped else 0
  {
  }

  /** A task that has not started has skipped nothing. */
  predicate Unstarted(w: World, l: Listener) {
    l !in w.callbacks || w.callbacks[l].stage in {Installed, Registered, Joined}
  }

  lemma {:induction false} SkipsAreCounted(events: seq<Event>, l: Listener)
    ensures Unstarted(Run(START, events), l) ==> Skips(events, l) == 0
    ensures l in Run(START, events).callbacks ==> Run(START, events).callbacks[l].gate.skipped == Skips(events, l)
  {
    if events != [] {
      var before, e := events[..|events| - 1], events[|events| - 1];
      SkipsAreCounted(before, l);
      RunSnoc(START, events);
      if l in Run(START, events).callbacks {
        StepCountsSkips(Run(START, before), e, l);
      }
      StartsOnce(Run(START, before), e, l);
    }
  }

  lemma StartsOnce(w: World, e: Event, l: Listener)
    ensures Unstarted(Apply(w, e), l) ==> Unstarted(w, l)
  {
  }

  lemma StepCountsPushes(w: World, e: Event, l: Listener)
    requires l in w.callbacks
    ensures l in Apply(w, e).callbacks
    ensures Apply(w, e).callbacks[l].activity == w.callbacks[l].activity + if IsPush(w, e, l) then 1 else 0
  {
  }

  lemma NewCallbacksWereNotPushed(w: World, e: Event, l: Listener)
    requires Inv(w) && l !in w.callbacks
    ensures !IsPush(w, e, l) && (l in Apply(w, e).callbacks ==> Apply(w, e).callbacks[l].activity == 0)
  {
  }

  /** The activity counter counts what connections handed to the callback, and nothing that polls did. */
  lemma {:induction false} ActivityIsPushes(w: World, events: seq<Event>, l: Listener)
    requires Inv(w)
    ensures l in Run(w, events).callbacks ==>
      Run(w, events).callbacks[l].activity == (if l in w.callbacks then w.callbacks[l].activity else 0) + Pushes(w, events, l)
    ensures l !in Run(w, events).callbacks ==> Pushes(w, events, l) == 0
    decreases |events|
  {
    if events != [] {
      StepKeepsInv(w, events[0]);
      if l in w.callbacks {
        StepCountsPushes(w, events[0], l);
      } else {
        NewCallbacksWereNotPushed(w, events[0], l);
      }
      ActivityIsPushes(Apply(w, events[0]), events[1..], l);
      if l in w.callbacks {
        RoomsPersist(w, events, l);
      } else if l in Apply(w, events[0]).callbacks {
        RoomsPersist(Apply(w, events[0]), events[1..], l);
      }
    }
  }

  /** While the task sleeps its counter grows by the pushes, and what it remembers stays. */
  lemma {:induction false} WhileAsleep(w: World, events: seq<Event>, l: Listener)
    requires At(w, l, Asleep) && NoTick(events, l)
    ensures At(Run(w, events), l, Asleep) && Run(w, events).callbacks[l].gate == w.callbacks[l].gate
    ensures Run(w, events).callbacks[l].activity == w.callbacks[l].activity + Pushes(w, events, l)
    ensures Run(w, events).callbacks[l].room == w.callbacks[l].room
    decreases |events|
  {
    if events != [] {
      var e, rest := events[0], events[1..];
      assert forall i :: 0 <= i < |rest| ==> rest[i] == events[i + 1];
      StepWhileAsleep(w, e, l);
      WhileAsleep(Apply(w, e), rest, l);
    }
  }

  lemma StepWhileAsleep(w: World, e: Event, l: Listener)
    requires At(w, l, Asleep) && e != Tick(l)
    ensures
      var c, c' := w.callbacks[l], Apply(w, e).callbacks[l];
      && At(Apply(w, e), l, Asleep) && c'.gate == c.gate && c'.room == c.room
      && c'.activity == c.activity + if IsPush(w, e, l) then 1 else 0
  {
  }

  lemma RemembersTheCounter(w: World, e: Event, l: Listener)
    requires FallsAsleep(w, e, l)
    ensures Apply(w, e).callbacks[l].gate.lastActivity == Apply(w, e).callbacks[l].activity
  {
  }

  lemma TickDecides(w: World, l: Listener)
    requires At(w, l, Asleep)
    ensures
      var c, w' := w.callbacks[l], Apply(w, Tick(l));
      && (At(w', l, Ended) <==> c.room !in w.joined)
      && (At(w', l, Polling) <==> c.room in w.joined && (c.activity == c.gate.lastActivity || c.gate.skipped >= 7))
      && (At(w', l, Asleep) <==> c.room in w.joined && c.activity != c.gate.lastActivity && c.gate.skipped < 7)
  {
  }

  /**
   What the end of an interval decides, anywhere in any run. The task went to sleep by `e` and `during` is what
   happened since. It ends when its room was left meanwhile; otherwise it polls exactly when no connection
   handed its callback a message during the interval, or it has stood down seven times in a row.
   */
  lemma IntervalDecides(before: seq<Event>, e: Event, during: seq<Event>, l: Listener)
    requires FallsAsleep(Run(START, before), e, l) && NoTick(during, l)
    ensures
      var asleep := Apply(Run(START, before), e);
      var w := Run(asleep, during);
      var w' := Apply(w, Tick(l));
      && At(w, l, Asleep)
      && (At(w', l, Ended) <==> w.callbacks[l].room !in w.joined)
      && (At(w', l, Polling) <==>
            w.callbacks[l].room in w.joined && (Pushes(asleep, during, l) == 0 || Skips(before + [e], l) >= 7))
      && (At(w', l, Asleep) <==>
            w.callbacks[l].room in w.joined && Pushes(asleep, during, l) > 0 && Skips(before + [e], l) < 7)
  {
    var history := before + [e];
    assert history[..|history| - 1] == before;
    RunSnoc(START, history);
    SkipsAreCounted(history, l);
    RemembersTheCounter(Run(START, before), e, l);
    var asleep := Apply(Run(START, before), e);
    WhileAsleep(asleep, during, l);
    TickDecides(Run(asleep, during), l);
  }

  // ---- A closed connection ----

  /** Opened, not waiting to be swapped in, not in use, and nothing is installed on it. */
  predicate Closed(w: World, k: nat) {
    k in w.sockets && k !in w.ready && w.current != Some(k) && w.sockets[k] == map[]
  }

  lemma {:induction false} StaysClosed(w: World, events: seq<Event>, k: nat)
    requires Inv(w) && Closed(w, k)
    ensures Closed(Run(w, events), k)
    decreases |events|
  {
    if events != [] {
      StepKeepsInv(w, events[0]);
      StepStaysClosed(w, events[0], k);
      StaysClosed(Apply(w, events[0]), events[1..], k);
    }
  }

  lemma StepStaysClosed(w: World, e: Event, k: nat)
    requires Inv(w) && Closed(w, k)
    ensures Closed(Apply(w, e), k)
  {
  }

  /**
   Disconnecting closes the connection in use, and a replaced one is closed when it is dropped: whatever happens
   afterwards, no callback is installed on it and its dispatcher takes no further message.
   */
  lemma ClosedForGood(before: seq<Event>, e: Event, after: seq<Event>, k: nat)
    requires var w := Run(START, before);
      || (e == Disconnect && w.current == Some(k))
      || (e == Drop(k) && k in w.sockets && k !in w.ready && w.current != Some(k))
    ensures
      var w := Run(Apply(Run(START, before), e), after);
      && w.current != Some(k) && (forall room, l :: !InstalledOn(w, k, room, l))
      && forall room, id :: Apply(w, Fetch(k, room, id)) == w
  {
    RunKeepsInv(START, before);
    StepKeepsInv(Run(START, before), e);
    StaysClosed(Apply(Run(START, before), e), after, k);
  }
}
