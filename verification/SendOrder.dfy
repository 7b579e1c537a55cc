/** What every run of the send queues keeps: order, bounds, one send in flight, and no idle channel. */
module SendOrder {
  import opened Basics
  import OrderedDelivery
  import opened Replay
  import opened SendQueue

  /** What a publisher key has handed to the host, oldest first. */
  function SentBy(sent: seq<(Key, Outgoing)>, key: Key): seq<Outgoing> {
    if sent == [] then []
    else
      var last := |sent| - 1;
      SentBy(sent[..last], key) + if sent[last].0 == key then [sent[last].1] else []
  }

  lemma SentByAppend(sent: seq<(Key, Outgoing)>, entry: (Key, Outgoing), key: Key)
    ensures SentBy(sent + [entry], key) == if entry.0 == key then SentBy(sent, key) + [entry.1] else SentBy(sent, key)
  {
    assert (sent + [entry])[..|sent|] == sent;
  }

  predicate Before(a: Outgoing, b: Outgoing) {
    a.epoch < b.epoch || (a.epoch == b.epoch && a.message.sequence < b.message.sequence)
  }

  ghost predicate Increasing(line: seq<Outgoing>) {
    forall i, j | 0 <= i < j < |line| :: Before(line[i], line[j])
  }

  /** A message of an older binding, or the one that this binding's log holds under its number. */
  ghost predicate Logged(o: Outgoing, p: Publisher) {
    && p.binding.Some?
    && (o.epoch < p.binding.value.epoch
        || (&& o.epoch == p.binding.value.epoch && o.track == p.binding.value.track
            && OrderedDelivery.Authentic(o.message, p.log)))
  }

  ghost predicate AllLogged(line: seq<Outgoing>, p: Publisher) {
    forall o | o in line :: Logged(o, p)
  }

  ghost predicate PublisherOk(key: Key, p: Publisher, line: seq<Outgoing>, c: Counters) {
    && (p.binding.None? ==> p == IDLE)
    && (p.binding.Some? ==> p.binding.value.epoch < c.epochs && AllLogged(line + p.queue, p))
    && Load(p) <= SEND_CAPACITY
    && (key.mode == Latest ==> |p.queue| <= 1)
    && |p.log| == p.archive.next <= U64_MAX
    && (key.mode == Ordered ==> Archives(p.archive, p.log))
    && Increasing(line + p.queue)
    && (p.flight.Some? ==>
          && |line| > 0 && line[|line| - 1] == p.flight.value.outgoing
          && p.flight.value.operation < c.operations)
  }

  ghost predicate KeyOk(s: State, key: Key) {
    var line := SentBy(s.sent, key);
    && Increasing(line)
    && (forall o | o in line :: o.epoch < s.counters.epochs)
    && (key in s.publishers ==> PublisherOk(key, s.publishers[key], line, s.counters))
  }

  /** Two publishers never wait for the same completion. */
  ghost predicate FlightsDistinct(s: State) {
    forall a, b | a in s.publishers && b in s.publishers && a != b ::
      s.publishers[a].flight.Some? && s.publishers[b].flight.Some? ==>
        s.publishers[a].flight.value.operation != s.publishers[b].flight.value.operation
  }

  /** A message waits only behind another in flight or for want of a channel. */
  ghost predicate Busy(s: State, key: Key) {
    && key in s.publishers
    && s.publishers[key].queue != []
    && ChannelFor(s.active, key).Some?
    ==> s.publishers[key].flight.Some?
  }

  ghost predicate Inv(s: State) {
    && (forall key {:trigger KeyOk(s, key)} :: KeyOk(s, key))
    && (forall key {:trigger Busy(s, key)} :: Busy(s, key))
    && FlightsDistinct(s)
  }

  // ---- dispatch

  lemma IncreasingPrefix(line: seq<Outgoing>, n: nat)
    requires Increasing(line) && n <= |line|
    ensures Increasing(line[..n])
  {
  }

  /** Dispatching moves the head of the queue to the end of what was sent: the two together stay the same line. */
  lemma MovedHeadOk(key: Key, p: Publisher, line: seq<Outgoing>, c: Counters, q: Publisher, d: Counters)
    requires PublisherOk(key, p, line, c) && p.queue != [] && p.binding.Some? && p.flight.None?
    requires q == p.(queue := p.queue[1..], flight := q.flight) && q.flight.Some?
    requires q.flight.value.outgoing == p.queue[0] && q.flight.value.operation == c.operations
    requires d == c.(operations := c.operations + 1)
    ensures PublisherOk(key, q, line + [p.queue[0]], d)
    ensures Increasing(line + [p.queue[0]]) && p.queue[0].epoch < d.epochs
  {
    var whole := line + p.queue;
    assert line + [p.queue[0]] + q.queue == whole;
    assert line + [p.queue[0]] == whole[..|line| + 1];
    IncreasingPrefix(whole, |line| + 1);
    assert p.queue[0] in whole;
    assert AllLogged(whole, q) by {
      forall o | o in whole ensures Logged(o, q) { assert Logged(o, p); }
    }
    assert Logged(p.queue[0], p);
  }

  lemma DispatchedOwnOk(s: State, t: State, key: Key)
    requires KeyOk(s, key) && Ready(s, key) && t == Dispatched(s, key)
    ensures KeyOk(t, key)
  {
    var p, line := s.publishers[key], SentBy(s.sent, key);
    SentByAppend(s.sent, (key, p.queue[0]), key);
    assert SentBy(t.sent, key) == line + [p.queue[0]];
    MovedHeadOk(key, p, line, s.counters, t.publishers[key], t.counters);
  }

  lemma DispatchedOtherOk(s: State, t: State, key: Key, other: Key)
    requires KeyOk(s, other) && Ready(s, key) && t == Dispatched(s, key) && other != key
    ensures KeyOk(t, other)
  {
    SentByAppend(s.sent, (key, s.publishers[key].queue[0]), other);
    assert SentBy(t.sent, other) == SentBy(s.sent, other);
  }

  lemma DispatchedKeyOk(s: State, key: Key, other: Key)
    requires KeyOk(s, key) && KeyOk(s, other)
    ensures KeyOk(Dispatched(s, key), other)
  {
    if Ready(s, key) {
      if other == key {
        DispatchedOwnOk(s, Dispatched(s, key), key);
      } else {
        DispatchedOtherOk(s, Dispatched(s, key), key, other);
      }
    }
  }

  /** All but the publisher about to dispatch are already busy. */
  lemma DispatchedInv(s: State, key: Key)
    requires forall k {:trigger KeyOk(s, k)} :: KeyOk(s, k)
    requires forall k {:trigger Busy(s, k)} :: k != key ==> Busy(s, k)
    requires FlightsDistinct(s)
    ensures Inv(Dispatched(s, key))
  {
    var t := Dispatched(s, key);
    assert KeyOk(s, key);
    forall k ensures KeyOk(t, k) {
      assert KeyOk(s, k);
      DispatchedKeyOk(s, key, k);
    }
    forall k ensures Busy(t, k) {
      if k != key { assert Busy(s, k); }
    }
    forall k | k in s.publishers && s.publishers[k].flight.Some?
      ensures s.publishers[k].flight.value.operation < s.counters.operations
    {
      assert KeyOk(s, k);
    }
  }

  // ---- one key at a time

  /** Everything a publisher has numbered precedes the number it gives next. */
  lemma NextIsNewest(p: Publisher, o: Outgoing, next: Outgoing)
    requires Logged(o, p) && |p.log| == p.archive.next
    requires next.epoch == p.binding.value.epoch && next.message.sequence == p.archive.next
    ensures Before(o, next)
  {
  }

  lemma LoggedGrows(p: Publisher, q: Publisher, o: Outgoing)
    requires Logged(o, p) && q.binding == p.binding && |q.log| == |p.log| + 1 && q.log[..|p.log|] == p.log
    ensures Logged(o, q)
  {
  }

  lemma ExtendedOk(key: Key, p: Publisher, line: seq<Outgoing>, c: Counters, payload: OrderedDelivery.Payload)
    requires PublisherOk(key, p, line, c) && p.binding.Some?
    ensures var q := Enqueued(key, p, payload); AllLogged(line + q.queue, q) && Increasing(line + q.queue)
  {
    var q := Enqueued(key, p, payload);
    var kept := if Supersedes(key, p) then p.queue[..|p.queue| - 1] else p.queue;
    var whole, prefix, next := line + p.queue, line + kept, q.queue[|kept|];
    assert prefix == whole[..|prefix|];
    IncreasingPrefix(whole, |prefix|);
    forall o | o in prefix ensures Logged(o, q) && Before(o, next) {
      assert o in whole;
      assert Logged(o, p);
      NextIsNewest(p, o, next);
      LoggedGrows(p, q, o);
    }
    assert line + q.queue == prefix + [next];
  }

  lemma AdmittedKeyOk(s: State, key: Key, payload: OrderedDelivery.Payload, waiting: nat)
    requires KeyOk(s, key) && RefusalOf(s, key, payload, waiting).None?
    ensures KeyOk(Admitted(s, key, payload), key)
  {
    var p := s.publishers[key];
    ExtendedOk(key, p, SentBy(s.sent, key), s.counters, payload);
    if key.mode == Ordered { RecordedArchives(p.archive, p.log, payload); }
  }

  lemma AttachedKeyOk(s: State, channel: nat, key: Key, track: string)
    requires KeyOk(s, key) && s.active.Some?
    ensures KeyOk(Attached(s, channel, key, track), key)
  {
    var line := SentBy(s.sent, key);
    var p := if key in s.publishers then s.publishers[key] else IDLE;
    var q := Rebound(p, track, s.counters.epochs);
    assert line + [] == line;
    if q != p {
      forall o | o in line + q.queue ensures Logged(o, q) {
        if o in line {
          assert o.epoch < s.counters.epochs;
        } else {
          assert o in line + p.queue;
          assert Logged(o, p);
        }
      }
    }
  }

  lemma IdleKeyOk(s: State, t: State, key: Key)
    requires KeyOk(s, key) && t.sent == s.sent && t.counters.epochs == s.counters.epochs
    requires key in t.publishers ==> t.publishers[key] == IDLE
    ensures KeyOk(t, key)
  {
    assert SentBy(s.sent, key) + [] == SentBy(s.sent, key);
  }

  /** A key whose publisher did not change stays as it was while the counters only grow. */
  lemma SameKeyOk(s: State, t: State, key: Key)
    requires KeyOk(s, key) && t.sent == s.sent
    requires key in t.publishers ==> key in s.publishers && t.publishers[key] == s.publishers[key]
    requires t.counters.epochs >= s.counters.epochs && t.counters.operations >= s.counters.operations
    ensures KeyOk(t, key)
  {
  }

  // ---- steps

  lemma SentInv(s: State, key: Key, payload: OrderedDelivery.Payload, waiting: nat)
    requires Inv(s)
    ensures Inv(Sent(s, key, payload, waiting))
  {
    if RefusalOf(s, key, payload, waiting).None? {
      var t := Admitted(s, key, payload);
      forall k ensures KeyOk(t, k) {
        assert KeyOk(s, k);
        if k == key { AdmittedKeyOk(s, key, payload, waiting); } else { SameKeyOk(s, t, k); }
      }
      forall k | k != key ensures Busy(t, k) { assert Busy(s, k); }
      DispatchedInv(t, key);
    } else {
      var t := Sent(s, key, payload, waiting);
      forall k ensures KeyOk(t, k) && Busy(t, k) {
        assert KeyOk(s, k) && Busy(s, k);
        SameKeyOk(s, t, k);
      }
    }
  }

  lemma CompletedInv(s: State, operation: nat, generation: nat, channel: nat, delivered: bool)
    requires Inv(s)
    ensures Inv(Completed(s, operation, generation, channel, delivered))
  {
    var sender := Sender(s, operation, generation, channel);
    if sender.Some? {
      var key := sender.value;
      var t := Landed(s, key, delivered);
      forall k ensures KeyOk(t, k) {
        assert KeyOk(s, k);
        if k != key { SameKeyOk(s, t, k); }
      }
      forall k | k != key ensures Busy(t, k) { assert Busy(s, k); }
      DispatchedInv(t, key);
    }
  }

  lemma ChannelForOther(a: Active, b: Active, key: Key)
    requires forall channel :: Routes(b, channel, key) ==> Routes(a, channel, key)
    ensures ChannelFor(Some(b), key).Some? ==> ChannelFor(Some(a), key).Some?
  {
    if channel :| channel in ChannelsOf(b, key) {
      assert Routes(a, channel, key);
      assert channel in ChannelsOf(a, key);
    }
  }

  lemma InstalledInv(s: State, generation: nat, channel: nat, key: Key, track: string)
    requires Inv(s)
    ensures Inv(Installed(s, generation, channel, key, track))
  {
    if s.active.Some? && s.active.value.generation == generation {
      var t := Attached(s, channel, key, track);
      forall k ensures KeyOk(t, k) {
        assert KeyOk(s, k);
        if k == key { AttachedKeyOk(s, channel, key, track); } else { SameKeyOk(s, t, k); }
      }
      forall k | k != key ensures Busy(t, k) {
        assert Busy(s, k);
        ChannelForOther(s.active.value, t.active.value, k);
      }
      DispatchedInv(t, key);
    }
  }

  /** Taking routes away, or publishers back to idle, keeps everything. */
  lemma WithdrawnInv(s: State, t: State)
    requires Inv(s) && t.sent == s.sent
    requires t.counters.epochs == s.counters.epochs && t.counters.operations == s.counters.operations
    requires forall key | key in t.publishers ::
      t.publishers[key] == IDLE || (key in s.publishers && t.publishers[key] == s.publishers[key])
    requires t.active.Some? ==> s.active.Some? || t.active.value.channels == map[]
    requires t.active.Some? && s.active.Some? ==>
      forall channel, key :: Routes(t.active.value, channel, key) ==> Routes(s.active.value, channel, key)
    ensures Inv(t)
  {
    forall k ensures KeyOk(t, k) && Busy(t, k) {
      assert KeyOk(s, k) && Busy(s, k);
      if k in t.publishers && t.publishers[k] != IDLE {
        SameKeyOk(s, t, k);
        if t.active.Some? && s.active.Some? { ChannelForOther(s.active.value, t.active.value, k); }
      } else {
        IdleKeyOk(s, t, k);
      }
    }
  }

  lemma StepInv(s: State, event: Event)
    requires Inv(s)
    ensures Inv(Step(s, event))
  {
    match event
    case Send(key, payload, waiting) => SentInv(s, key, payload, waiting);
    case Complete(operation, generation, channel, delivered) =>
      CompletedInv(s, operation, generation, channel, delivered);
    case Install(generation, channel, key, track) => InstalledInv(s, generation, channel, key, track);
    case Detach(_, _) => WithdrawnInv(s, Step(s, event));
    case Divert(_, _) => WithdrawnInv(s, Step(s, event));
    case Suspend(_, _) => WithdrawnInv(s, Step(s, event));
    case Bind(_) => WithdrawnInv(s, Step(s, event));
    case Unbind(_) => WithdrawnInv(s, Step(s, event));
    case End => WithdrawnInv(s, Step(s, event));
    case Register(_) => WithdrawnInv(s, Step(s, event));
    case Reconcile(_) => WithdrawnInv(s, Step(s, event));
  }

  lemma {:induction false} RunInv(events: seq<Event>)
    ensures Inv(Run(events))
    decreases |events|
  {
    if events == [] {
      forall key ensures KeyOk(EMPTY, key) && Busy(EMPTY, key) {
      }
    } else {
      RunInv(events[..|events| - 1]);
      StepInv(Run(events[..|events| - 1]), events[|events| - 1]);
    }
  }

  // ---- what a host and an application observe

  /**
   * In every run a publisher hands over its messages in strictly increasing
   * order of binding and number, so no number of a binding is handed over twice.
   */
  lemma SentInOrder(events: seq<Event>, key: Key, i: nat, j: nat)
    requires i < j < |SentBy(Run(events).sent, key)|
    ensures var line := SentBy(Run(events).sent, key); Before(line[i], line[j])
  {
    RunInv(events);
    assert KeyOk(Run(events), key);
  }

  /** In every run queues are bounded, latest publishers queue one message, and what waits has a reason to wait. */
  lemma QueuesBounded(events: seq<Event>, key: Key)
    ensures var s := Run(events);
      key in s.publishers ==>
        && Load(s.publishers[key]) <= SEND_CAPACITY
        && (key.mode == Latest ==> |s.publishers[key].queue| <= 1)
        && (s.publishers[key].queue != [] ==> s.publishers[key].flight.Some? || ChannelFor(s.active, key).None?)
  {
    RunInv(events);
    assert KeyOk(Run(events), key) && Busy(Run(events), key);
  }

  /** A completion that answers no send in flight changes nothing; one that does is answered by one publisher only. */
  lemma CompletionAnswersOne(events: seq<Event>, operation: nat, generation: nat, channel: nat, a: Key, b: Key)
    requires var s := Run(events);
      && a in s.publishers && Awaits(s.publishers[a], operation, generation, channel)
      && b in s.publishers && Awaits(s.publishers[b], operation, generation, channel)
    ensures a == b
  {
    RunInv(events);
  }

  /**
   * The archive that answers recovery requests holds what was numbered under the current binding,
   * and so does what was sent.
   */
  lemma ArchiveMatchesSent(events: seq<Event>, key: Key, p: Publisher, o: Outgoing)
    requires key in Run(events).publishers && p == Run(events).publishers[key] && p.binding.Some?
    requires o in SentBy(Run(events).sent, key)
    ensures key.mode == Ordered ==> Archives(p.archive, p.log)
    ensures o.epoch == p.binding.value.epoch ==> OrderedDelivery.Authentic(o.message, p.log)
  {
    var s := Run(events);
    RunInv(events);
    assert KeyOk(s, key);
    assert o in SentBy(s.sent, key) + p.queue;
    assert Logged(o, p);
  }
}
