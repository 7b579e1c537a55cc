/** Under which binding a queued message is handed over when a publisher is bound to another track. */
module SendBindings {
  import opened Basics
  import OrderedDelivery
  import Replay
  import opened SendQueue
  import opened SendOrder

  /** The message was numbered under the publisher's present binding. */
  predicate Own(p: Publisher, o: Outgoing) {
    p.binding == Some(Binding(o.epoch, o.track))
  }

  ghost predicate QueueOwn(s: State, key: Key)
    requires key in s.publishers
  {
    forall o | o in s.publishers[key].queue :: Own(s.publishers[key], o)
  }

  /** Everything queued waits under its own binding. */
  ghost predicate AllOwn(s: State) {
    forall key {:trigger QueueOwn(s, key)} | key in s.publishers :: QueueOwn(s, key)
  }

  /** What the step from `s` to `t` handed over, it handed over under the message's own binding. */
  ghost predicate HandedOwn(s: State, t: State) {
    && s.sent <= t.sent
    && forall i | |s.sent| <= i < |t.sent| ::
         t.sent[i].0 in t.publishers && Own(t.publishers[t.sent[i].0], t.sent[i].1)
  }

  ghost predicate StepOwn(s: State, t: State) {
    AllOwn(t) && HandedOwn(s, t)
  }

  /** Binding another track finds a message waiting. */
  predicate Strays(s: State, generation: nat, key: Key, track: string) {
    && s.active.Some? && s.active.value.generation == generation
    && key in s.publishers && s.publishers[key].queue != []
    && s.publishers[key].binding.Some? && s.publishers[key].binding.value.track != track
  }

  // ---- steps

  lemma DispatchedOwn(s: State, key: Key)
    requires AllOwn(s)
    ensures StepOwn(s, Dispatched(s, key))
  {
    var t := Dispatched(s, key);
    if Ready(s, key) {
      assert QueueOwn(s, key);
      assert s.publishers[key].queue[0] in s.publishers[key].queue;
      forall k | k in t.publishers ensures QueueOwn(t, k) {
        assert QueueOwn(s, k);
        forall o | o in t.publishers[k].queue ensures o in s.publishers[k].queue {
        }
      }
    }
  }

  lemma AdmittedOwn(s: State, key: Key, payload: OrderedDelivery.Payload)
    requires AllOwn(s) && key in s.publishers && s.publishers[key].binding.Some?
    ensures AllOwn(Admitted(s, key, payload))
  {
    var t := Admitted(s, key, payload);
    forall k | k in t.publishers ensures QueueOwn(t, k) {
      assert QueueOwn(s, k);
      forall o | o in t.publishers[k].queue ensures Own(t.publishers[k], o) {
        assert o in s.publishers[k].queue ==> Own(s.publishers[k], o);
      }
    }
  }

  lemma LandedOwn(s: State, key: Key, delivered: bool)
    requires AllOwn(s) && key in s.publishers
    ensures AllOwn(Landed(s, key, delivered))
  {
    var t := Landed(s, key, delivered);
    forall k | k in t.publishers ensures QueueOwn(t, k) {
      assert QueueOwn(s, k);
    }
  }

  lemma AttachedOwn(s: State, channel: nat, key: Key, track: string)
    requires Inv(s) && AllOwn(s) && s.active.Some? && !Strays(s, s.active.value.generation, key, track)
    ensures AllOwn(Attached(s, channel, key, track))
  {
    var t := Attached(s, channel, key, track);
    assert KeyOk(s, key);
    forall k | k in t.publishers ensures QueueOwn(t, k) {
      if k in s.publishers { assert QueueOwn(s, k); }
    }
  }

  /** A stray stays queued under the new binding, or it is what the installation sends. */
  lemma StrayIsMisbound(s: State, channel: nat, key: Key, track: string, t: State)
    requires s.active.Some? && Strays(s, s.active.value.generation, key, track)
    requires AllOwn(s) && t == Installed(s, s.active.value.generation, channel, key, track)
    ensures !StepOwn(s, t)
  {
    var o := s.publishers[key].queue[0];
    var a := Attached(s, channel, key, track);
    assert QueueOwn(s, key) && o in s.publishers[key].queue;
    assert Own(s.publishers[key], o) && o.track != track;
    if Ready(a, key) {
      assert t.sent[|s.sent|] == (key, o);
      assert !Own(t.publishers[key], o);
    } else {
      assert o in t.publishers[key].queue && !Own(t.publishers[key], o);
      assert !QueueOwn(t, key);
    }
  }

  /** Installing a track keeps messages under their own binding exactly when no message waits for another track. */
  lemma InstallKeepsOwn(s: State, generation: nat, channel: nat, key: Key, track: string)
    requires Inv(s) && AllOwn(s)
    ensures StepOwn(s, Installed(s, generation, channel, key, track)) <==> !Strays(s, generation, key, track)
  {
    if s.active.Some? && s.active.value.generation == generation {
      if Strays(s, generation, key, track) {
        StrayIsMisbound(s, channel, key, track, Installed(s, generation, channel, key, track));
      } else {
        AttachedOwn(s, channel, key, track);
        DispatchedOwn(Attached(s, channel, key, track), key);
      }
    }
  }

  /**
   * The send an installation starts carries the installed track exactly when it starts none or the
   * next in line does.
   */
  lemma InstallSends(s: State, generation: nat, channel: nat, key: Key, track: string, t: State)
    requires s.active.Some? && s.active.value.generation == generation
    requires t == Installed(s, generation, channel, key, track)
    ensures |s.sent| <= |t.sent| <= |s.sent| + 1
    ensures (t.sent == s.sent || t.sent[|s.sent|].1.track == track) <==>
      (key !in s.publishers || s.publishers[key].flight.Some? || s.publishers[key].queue == []
       || s.publishers[key].queue[0].track == track)
  {
    var a := Attached(s, channel, key, track);
    assert Routes(a.active.value, channel, key);
    assert channel in ChannelsOf(a.active.value, key);
  }

  lemma WithdrawnOwn(s: State, t: State)
    requires AllOwn(s) && t.sent == s.sent
    requires forall key | key in t.publishers ::
      t.publishers[key] == IDLE || (key in s.publishers && t.publishers[key] == s.publishers[key])
    ensures StepOwn(s, t)
  {
    forall k | k in t.publishers ensures QueueOwn(t, k) {
      if k in s.publishers { assert QueueOwn(s, k); }
    }
  }

  /** The event installs no track over waiting messages of another one. */
  predicate Calm(s: State, event: Event) {
    event.Install? ==> !Strays(s, event.generation, event.key, event.track)
  }

  lemma StepKeepsOwn(s: State, event: Event)
    requires Inv(s) && AllOwn(s) && Calm(s, event)
    ensures StepOwn(s, Step(s, event))
  {
    match event
    case Send(key, payload, waiting) =>
      if RefusalOf(s, key, payload, waiting).None? {
        AdmittedOwn(s, key, payload);
        DispatchedOwn(Admitted(s, key, payload), key);
      } else {
        WithdrawnOwn(s, Step(s, event));
      }
    case Complete(operation, generation, channel, delivered) =>
      var sender := Sender(s, operation, generation, channel);
      if sender.Some? {
        LandedOwn(s, sender.value, delivered);
        DispatchedOwn(Landed(s, sender.value, delivered), sender.value);
      }
    case Install(generation, channel, key, track) => InstallKeepsOwn(s, generation, channel, key, track);
    case Detach(_, _) => WithdrawnOwn(s, Step(s, event));
    case Divert(_, _) => WithdrawnOwn(s, Step(s, event));
    case Suspend(_, _) => WithdrawnOwn(s, Step(s, event));
    case Bind(_) => WithdrawnOwn(s, Step(s, event));
    case Unbind(_) => WithdrawnOwn(s, Step(s, event));
    case End => WithdrawnOwn(s, Step(s, event));
    case Register(_) => WithdrawnOwn(s, Step(s, event));
    case Reconcile(_) => WithdrawnOwn(s, Step(s, event));
  }

  ghost predicate CalmRun(events: seq<Event>) {
    forall i | 0 <= i < |events| :: Calm(Run(events[..i]), events[i])
  }

  lemma CalmPrefix(events: seq<Event>, n: nat)
    requires CalmRun(events) && n <= |events|
    ensures CalmRun(events[..n])
  {
    forall i | 0 <= i < n ensures Calm(Run(events[..n][..i]), events[..n][i]) {
      assert events[..n][..i] == events[..i];
    }
  }

  lemma {:induction false} RunKeepsOwn(events: seq<Event>)
    requires CalmRun(events)
    ensures AllOwn(Run(events))
    decreases |events|
  {
    if events != [] {
      var last := |events| - 1;
      CalmPrefix(events, last);
      RunKeepsOwn(events[..last]);
      RunInv(events[..last]);
      StepKeepsOwn(Run(events[..last]), events[last]);
    }
  }

  /** In every run that is calm so far, a step hands messages over under their own binding if and only if it is calm. */
  lemma HandedUnderOwnBinding(events: seq<Event>, event: Event)
    requires CalmRun(events)
    ensures StepOwn(Run(events), Step(Run(events), event)) <==> Calm(Run(events), event)
  {
    RunKeepsOwn(events);
    RunInv(events);
    if event.Install? {
      InstallKeepsOwn(Run(events), event.generation, event.channel, event.key, event.track);
    } else {
      StepKeepsOwn(Run(events), event);
    }
  }

  // ---- a stray

  lemma RunLast(events: seq<Event>, last: Event)
    ensures Run(events + [last]) == Step(Run(events), last)
  {
    assert (events + [last])[..|events|] == events;
  }

  ghost predicate OneChannel(s: State, g: nat, ch: nat, key: Key, suspended: bool) {
    && s.active.Some? && s.active.value.generation == g
    && s.active.value.channels == map[ch := key]
    && s.active.value.suspended == (if suspended then {ch} else {})
  }

  /** One publisher on one channel, as far as the run below needs to know it. */
  ghost predicate At(s: State, g: nat, ch: nat, key: Key, track: string, queue: seq<Outgoing>, flight: Option<Flight>,
                     suspended: bool)
  {
    && key in s.registered
    && OneChannel(s, g, ch, key, suspended)
    && key in s.publishers && s.publishers[key].binding.Some? && s.publishers[key].binding.value.track == track
    && s.publishers[key].queue == queue && s.publishers[key].flight == flight
  }

  lemma Channels(s: State, g: nat, ch: nat, key: Key, suspended: bool)
    requires OneChannel(s, g, ch, key, suspended)
    ensures ChannelFor(s.active, key) == if suspended then None else Some(ch)
  {
    assert Routes(s.active.value, ch, key) <==> !suspended;
    assert ChannelsOf(s.active.value, key) == if suspended then {} else {ch};
  }

  /** A listed publisher without a channel. */
  ghost predicate Fresh(s: State, g: nat, key: Key) {
    && key in s.registered && s.active.Some? && s.active.value == Active(g, map[], {})
    && key in s.publishers && s.publishers[key] == IDLE
  }

  lemma BindStep(s: State, g: nat, t: State)
    requires s.publishers.Keys == {} && t == Step(s, Bind(g))
    ensures t.publishers.Keys == {} && t.active == Some(Active(g, map[], {})) && t.sent == s.sent
  {
  }

  lemma ListStep(s: State, g: nat, key: Key, t: State)
    requires s.publishers.Keys == {} && s.active == Some(Active(g, map[], {})) && t == Step(s, Reconcile({key}))
    ensures Fresh(t, g, key) && t.sent == s.sent
  {
    assert key in {key};
    assert t.active.value.channels == map[];
  }

  lemma SuspendStep(s: State, g: nat, ch: nat, key: Key, track: string, queue: seq<Outgoing>, flight: Option<Flight>,
    t: State)
    requires At(s, g, ch, key, track, queue, flight, false) && t == Suspended(s, g, ch)
    ensures At(t, g, ch, key, track, queue, flight, true) && t.sent == s.sent
  {
    assert t.active.value.suspended == {ch};
  }

  lemma OpenStep(s: State, g: nat, ch: nat, key: Key, track: string, t: State)
    requires Fresh(s, g, key)
    requires t == Installed(s, g, ch, key, track)
    ensures At(t, g, ch, key, track, [], None, false) && t.publishers[key].archive.next == 0 && t.sent == s.sent
  {
    var a := Attached(s, ch, key, track);
    assert a.active.value.suspended == {} && a.active.value.channels == map[ch := key];
    assert !Ready(a, key);
  }

  lemma FirstSend(s: State, g: nat, ch: nat, key: Key, track: string, t: State) returns (o: Outgoing)
    requires At(s, g, ch, key, track, [], None, false) && s.publishers[key].archive.next == 0
    requires 0 < |key.topic| <= MAX_TOPIC && t == Sent(s, key, [], 0)
    ensures At(t, g, ch, key, track, [], Some(Flight(s.counters.operations + 1, g, ch, o)), false)
    ensures t.publishers[key].archive.next == 1 && t.sent == s.sent + [(key, o)]
  {
    Channels(s, g, ch, key, false);
    var a := Admitted(s, key, []);
    Channels(a, g, ch, key, false);
    o := a.publishers[key].queue[0];
    assert a.publishers[key].queue == [o] && Ready(a, key);
  }

  lemma SecondSend(s: State, g: nat, ch: nat, key: Key, track: string, flight: Flight, t: State) returns (o: Outgoing)
    requires At(s, g, ch, key, track, [], Some(flight), false) && s.publishers[key].archive.next == 1
    requires 0 < |key.topic| <= MAX_TOPIC && t == Sent(s, key, [], 0)
    ensures At(t, g, ch, key, track, [o], Some(flight), false) && o.track == track && t.sent == s.sent
  {
    Channels(s, g, ch, key, false);
    var a := Admitted(s, key, []);
    o := a.publishers[key].queue[0];
    assert !Ready(a, key);
  }

  lemma CompleteStep(s: State, g: nat, ch: nat, key: Key, track: string, flight: Flight, o: Outgoing, t: State)
    requires Inv(s) && At(s, g, ch, key, track, [o], Some(flight), true)
    requires t == Completed(s, flight.operation, flight.generation, flight.channel, true)
    ensures At(t, g, ch, key, track, [o], None, true) && t.sent == s.sent
  {
    assert Awaits(s.publishers[key], flight.operation, flight.generation, flight.channel);
    var a := Landed(s, key, true);
    Channels(a, g, ch, key, true);
    assert !Ready(a, key);
  }

  lemma ReinstallStep(s: State, g: nat, ch: nat, key: Key, track: string, o: Outgoing, other: string, t: State)
    requires At(s, g, ch, key, track, [o], None, true) && other != track && t == Installed(s, g, ch, key, other)
    ensures At(t, g, ch, key, other, [], t.publishers[key].flight, false) && t.sent == s.sent + [(key, o)]
  {
    var a := Attached(s, ch, key, other);
    assert a.active.value.suspended == {} && a.active.value.channels == map[ch := key];
    Channels(a, g, ch, key, false);
    assert Ready(a, key);
  }

  /** Two sends of which the second is still queued when its channel is suspended and the first completes. */
  function Suspending(g: nat, ch: nat, key: Key, track: string, operation: nat): seq<Event> {
    [] + [Bind(g)] + [Reconcile({key})] + [Install(g, ch, key, track)] + [Send(key, [], 0)] + [Send(key, [], 0)]
    + [Suspend(g, ch)] + [Complete(operation, g, ch, true)]
  }

  lemma SuspendingState(g: nat, ch: nat, key: Key, track: string) returns (operation: nat, first: Outgoing, o: Outgoing)
    requires 0 < |key.topic| <= MAX_TOPIC
    ensures var s := Run(Suspending(g, ch, key, track, operation));
      At(s, g, ch, key, track, [o], None, true) && o.track == track && s.sent == [(key, first)]
  {
    var e1 := [] + [Bind(g)];
    var e2 := e1 + [Reconcile({key})];
    var e3 := e2 + [Install(g, ch, key, track)];
    var e4 := e3 + [Send(key, [], 0)];
    var e5 := e4 + [Send(key, [], 0)];
    var e6 := e5 + [Suspend(g, ch)];
    RunLast([], Bind(g));
    BindStep(Run([]), g, Run(e1));
    RunLast(e1, Reconcile({key}));
    ListStep(Run(e1), g, key, Run(e2));
    RunLast(e2, Install(g, ch, key, track));
    OpenStep(Run(e2), g, ch, key, track, Run(e3));
    RunLast(e3, Send(key, [], 0));
    first := FirstSend(Run(e3), g, ch, key, track, Run(e4));
    operation := Run(e3).counters.operations + 1;
    var flight := Flight(operation, g, ch, first);
    RunLast(e4, Send(key, [], 0));
    o := SecondSend(Run(e4), g, ch, key, track, flight, Run(e5));
    RunLast(e5, Suspend(g, ch));
    SuspendStep(Run(e5), g, ch, key, track, [o], Some(flight), Run(e6));
    RunLast(e6, Complete(operation, g, ch, true));
    RunInv(e6);
    CompleteStep(Run(e6), g, ch, key, track, flight, o, Run(Suspending(g, ch, key, track, operation)));
  }

  /**
   * For every publisher and any two tracks there is a run in which a message
   * numbered under one track is sent while the publisher is bound to the other.
   */
  lemma StrayIsSentUnderAnotherTrack(g: nat, ch: nat, key: Key, track: string, other: string)
    returns (events: seq<Event>)
    requires 0 < |key.topic| <= MAX_TOPIC && other != track
    ensures var s := Run(events);
      && key in s.publishers && s.publishers[key].binding.Some? && s.publishers[key].binding.value.track == other
      && |s.sent| == 2 && s.sent[1].0 == key && s.sent[1].1.track == track
  {
    var operation, first, o := SuspendingState(g, ch, key, track);
    var before := Suspending(g, ch, key, track, operation);
    events := before + [Install(g, ch, key, other)];
    RunLast(before, Install(g, ch, key, other));
    ReinstallStep(Run(before), g, ch, key, track, o, other, Run(events));
  }
}
