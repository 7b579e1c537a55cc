/**
 * The sending half of the topics: every publisher's queue, its one send in
 * flight, and the counters, under sends, host completions and changes of binding.
 */
module SendQueue {
  import opened Basics
  import opened OrderedDelivery
  import opened Replay

  const SEND_CAPACITY: nat := 256
  const MAX_PAYLOAD: nat := 65536
  const MAX_TOPIC: nat := 256

  datatype Key = Key(topic: string, mode: Mode)

  /** A message with the binding it was numbered under: each binding restarts the numbers. */
  datatype Outgoing = Outgoing(epoch: nat, track: string, message: Message)

  datatype Binding = Binding(epoch: nat, track: string)

  datatype Flight = Flight(operation: nat, generation: nat, channel: nat, outgoing: Outgoing)

  datatype Publisher = Publisher(binding: Option<Binding>, archive: Archive, log: seq<Payload>,
                                 queue: seq<Outgoing>, flight: Option<Flight>)

  const IDLE := Publisher(None, NEW, [], [], None)

  datatype Active = Active(generation: nat, channels: map<nat, Key>, suspended: set<nat>)

  /** `calls`, `acknowledged`, `epochs` and the log `sent` are bookkeeping; the rest are the fields of the source. */
  datatype Counters = Counters(operations: nat, accepted: nat, dropped: nat, calls: nat, acknowledged: nat, epochs: nat)

  datatype State = State(registered: set<Key>, active: Option<Active>, publishers: map<Key, Publisher>,
                         counters: Counters, sent: seq<(Key, Outgoing)>)

  const EMPTY := State({}, None, map[], Counters(0, 0, 0, 0, 0, 0), [])

  predicate Routes(active: Active, channel: nat, key: Key) {
    channel in active.channels && active.channels[channel] == key && channel !in active.suspended
  }

  function ChannelsOf(active: Active, key: Key): set<nat> {
    set channel | channel in active.channels && Routes(active, channel, key)
  }

  function ChannelFor(active: Option<Active>, key: Key): Option<nat> {
    if active.None? || ChannelsOf(active.value, key) == {} then None
    else Some(Least(ChannelsOf(active.value, key)))
  }

  function Load(p: Publisher): nat {
    |p.queue| + if p.flight.Some? then 1 else 0
  }

  ghost function Loads(publishers: map<Key, Publisher>): map<Key, nat> {
    map k | k in publishers :: Load(publishers[k])
  }

  function Dropping(c: Counters, n: nat): Counters {
    c.(dropped := c.dropped + n)
  }

  // ---- dispatch

  predicate Ready(s: State, key: Key) {
    && key in s.publishers
    && ChannelFor(s.active, key).Some?
    && s.publishers[key].flight.None?
    && s.publishers[key].binding.Some?
    && s.publishers[key].queue != []
  }

  /** Starts the publisher's next send unless one is in flight or there is nowhere to send. */
  function Dispatched(s: State, key: Key): State {
    if !Ready(s, key) then s
    else
      var p := s.publishers[key];
      var flight := Flight(s.counters.operations, s.active.value.generation, ChannelFor(s.active, key).value,
        p.queue[0]);
      s.(publishers := s.publishers[key := p.(queue := p.queue[1..], flight := Some(flight))],
         counters := s.counters.(operations := s.counters.operations + 1),
         sent := s.sent + [(key, p.queue[0])])
  }

  // ---- sending

  datatype Refusal = InvalidTopic | PayloadTooLarge | NotRegistered | Unavailable | Exhausted | QueueFull

  /** `waiting` is the number of admitted tickets parked for this publisher. */
  function RefusalOf(s: State, key: Key, payload: Payload, waiting: nat): Option<Refusal> {
    if |key.topic| == 0 || |key.topic| > MAX_TOPIC then Some(InvalidTopic)
    else if |payload| > MAX_PAYLOAD then Some(PayloadTooLarge)
    else if key !in s.registered then Some(NotRegistered)
    else if key !in s.publishers || s.publishers[key].binding.None? || ChannelFor(s.active, key).None?
      then Some(Unavailable)
    else if s.publishers[key].archive.next == U64_MAX then Some(Exhausted)
    else if Load(s.publishers[key]) + waiting >= SEND_CAPACITY then Some(QueueFull)
    else None
  }

  function Supersedes(key: Key, p: Publisher): bool {
    key.mode == Latest && p.queue != []
  }

  function Enqueued(key: Key, p: Publisher, payload: Payload): Publisher
    requires p.binding.Some?
  {
    var outgoing := Outgoing(p.binding.value.epoch, p.binding.value.track, Message(p.archive.next, payload));
    p.(archive := if key.mode == Ordered then Recorded(p.archive, payload) else p.archive.(next := p.archive.next + 1),
       log := p.log + [payload],
       queue := (if Supersedes(key, p) then p.queue[..|p.queue| - 1] else p.queue) + [outgoing])
  }

  /** The state in which an accepted message waits, before it is dispatched. */
  function Admitted(s: State, key: Key, payload: Payload): State
    requires key in s.publishers && s.publishers[key].binding.Some?
  {
    var c := s.counters;
    s.(publishers := s.publishers[key := Enqueued(key, s.publishers[key], payload)],
       counters := c.(calls := c.calls + 1, accepted := c.accepted + 1, operations := c.operations + 1,
                      dropped := c.dropped + if Supersedes(key, s.publishers[key]) then 1 else 0))
  }

  function Sent(s: State, key: Key, payload: Payload, waiting: nat): State {
    if RefusalOf(s, key, payload, waiting).Some? then
      s.(counters := s.counters.(calls := s.counters.calls + 1, dropped := s.counters.dropped + 1))
    else Dispatched(Admitted(s, key, payload), key)
  }

  // ---- completions

  predicate Awaits(p: Publisher, operation: nat, generation: nat, channel: nat) {
    && p.flight.Some?
    && p.flight.value.operation == operation
    && p.flight.value.generation == generation
    && p.flight.value.channel == channel
  }

  /** The publisher whose send a completion answers, if any. */
  ghost function Sender(s: State, operation: nat, generation: nat, channel: nat): Option<Key> {
    if exists key :: key in s.publishers && Awaits(s.publishers[key], operation, generation, channel) then
      var key :| key in s.publishers && Awaits(s.publishers[key], operation, generation, channel);
      Some(key)
    else None
  }

  /** The state in which a completed send has left its publisher free. */
  function Landed(s: State, key: Key, delivered: bool): State
    requires key in s.publishers
  {
    s.(publishers := s.publishers[key := s.publishers[key].(flight := None)],
       counters := if delivered then s.counters.(acknowledged := s.counters.acknowledged + 1)
         else Dropping(s.counters, 1))
  }

  ghost function Completed(s: State, operation: nat, generation: nat, channel: nat, delivered: bool): State {
    var key := Sender(s, operation, generation, channel);
    if key.None? then s else Dispatched(Landed(s, key.value, delivered), key.value)
  }

  // ---- bindings

  function Rebound(p: Publisher, track: string, epoch: nat): Publisher {
    if p.binding.Some? && p.binding.value.track == track then p
    else p.(binding := Some(Binding(epoch, track)), archive := NEW, log := [])
  }

  /** The state in which a channel and a track are bound to a publisher, before it dispatches. */
  function Attached(s: State, channel: nat, key: Key, track: string): State
    requires s.active.Some?
  {
    var active := s.active.value;
    var p := if key in s.publishers then s.publishers[key] else IDLE;
    s.(active := Some(active.(channels := active.channels[channel := key], suspended := active.suspended - {channel})),
       publishers := s.publishers[key := Rebound(p, track, s.counters.epochs)],
       counters := s.counters.(epochs := s.counters.epochs + 1))
  }

  function Installed(s: State, generation: nat, channel: nat, key: Key, track: string): State {
    if s.active.None? || s.active.value.generation != generation then s
    else Dispatched(Attached(s, channel, key, track), key)
  }

  /** A channel taken over by a subscriber no longer routes a publisher. */
  function Diverted(s: State, generation: nat, channel: nat): State {
    if s.active.None? || s.active.value.generation != generation then s
    else s.(active := Some(s.active.value.(channels := s.active.value.channels - {channel},
                                           suspended := s.active.value.suspended - {channel})))
  }

  function Suspended(s: State, generation: nat, channel: nat): State {
    if s.active.None? || s.active.value.generation != generation then s
    else s.(active := Some(s.active.value.(suspended := s.active.value.suspended + {channel})))
  }

  /** Detaching a publisher's channel drops its load and forgets its binding. */
  function Detached(s: State, generation: nat, channel: nat): State {
    if s.active.None? || s.active.value.generation != generation then s
    else
      var active := s.active.value;
      var freed := s.(active := Some(Active(generation, active.channels - {channel}, active.suspended - {channel})));
      if channel in active.channels && active.channels[channel] in s.publishers then
        var key := active.channels[channel];
        freed.(publishers := s.publishers[key := IDLE], counters := Dropping(s.counters, Load(s.publishers[key])))
      else freed
  }

  ghost function Unbound(s: State): State {
    s.(active := None,
       publishers := map k | k in s.publishers :: IDLE,
       counters := Dropping(s.counters, Sum(Loads(s.publishers))))
  }

  function Listed(channels: map<nat, Key>, keys: set<Key>): map<nat, Key> {
    map c | c in channels && channels[c] in keys :: channels[c]
  }

  ghost function Reconciled(s: State, keys: set<Key>): State {
    s.(registered := keys,
       active := if s.active.None? then None
                 else Some(s.active.value.(channels := Listed(s.active.value.channels, keys))),
       publishers := map k | k in keys :: if k in s.publishers then s.publishers[k] else IDLE,
       counters := Dropping(s.counters, Sum(Loads(s.publishers - keys))))
  }

  // ---- runs

  datatype Event =
    | Send(key: Key, payload: Payload, waiting: nat)
    | Complete(operation: nat, generation: nat, channel: nat, delivered: bool)
    | Install(generation: nat, channel: nat, key: Key, track: string)
    | Divert(generation: nat, channel: nat)
    | Suspend(generation: nat, channel: nat)
    | Detach(generation: nat, channel: nat)
    | Bind(generation: nat)
    | Unbind(generation: nat)
    | End
    | Register(keys: set<Key>)
    | Reconcile(keys: set<Key>)

  ghost function Step(s: State, event: Event): State {
    match event
    case Send(key, payload, waiting) => Sent(s, key, payload, waiting)
    case Complete(operation, generation, channel, delivered) => Completed(s, operation, generation, channel, delivered)
    case Install(generation, channel, key, track) => Installed(s, generation, channel, key, track)
    case Divert(generation, channel) => Diverted(s, generation, channel)
    case Suspend(generation, channel) => Suspended(s, generation, channel)
    case Detach(generation, channel) => Detached(s, generation, channel)
    case Bind(generation) => Unbound(s).(active := Some(Active(generation, map[], {})))
    case Unbind(generation) => if s.active.Some? && s.active.value.generation == generation then Unbound(s) else s
    case End => Unbound(s)
    case Register(keys) => s.(registered := keys)
    case Reconcile(keys) => Reconciled(s, keys)
  }

  ghost function Run(events: seq<Event>): State {
    if events == [] then EMPTY else Step(Run(events[..|events| - 1]), events[|events| - 1])
  }

  // ---- conservation

  /** Every call to send is acknowledged, queued, in flight or counted as dropped. */
  ghost predicate Conserved(s: State) {
    && s.counters.calls == s.counters.acknowledged + s.counters.dropped + Sum(Loads(s.publishers))
    && s.counters.accepted <= s.counters.calls <= s.counters.accepted + s.counters.dropped
  }

  lemma LoadsUpdate(publishers: map<Key, Publisher>, key: Key, p: Publisher)
    ensures Sum(Loads(publishers[key := p])) + (if key in publishers then Load(publishers[key]) else 0)
      == Sum(Loads(publishers)) + Load(p)
  {
    assert Loads(publishers[key := p]) == Loads(publishers)[key := Load(p)];
    SumUpdate(Loads(publishers), key, Load(p));
  }

  lemma DispatchedConserves(s: State, key: Key)
    requires Conserved(s)
    ensures Conserved(Dispatched(s, key))
  {
    if Ready(s, key) {
      LoadsUpdate(s.publishers, key, Dispatched(s, key).publishers[key]);
    }
  }

  lemma SentConserves(s: State, key: Key, payload: Payload, waiting: nat)
    requires Conserved(s)
    ensures Conserved(Sent(s, key, payload, waiting))
  {
    if RefusalOf(s, key, payload, waiting).None? {
      LoadsUpdate(s.publishers, key, Enqueued(key, s.publishers[key], payload));
      DispatchedConserves(Admitted(s, key, payload), key);
    }
  }

  lemma CompletedConserves(s: State, operation: nat, generation: nat, channel: nat, delivered: bool)
    requires Conserved(s)
    ensures Conserved(Completed(s, operation, generation, channel, delivered))
  {
    var key := Sender(s, operation, generation, channel);
    if key.Some? {
      LoadsUpdate(s.publishers, key.value, s.publishers[key.value].(flight := None));
      DispatchedConserves(Landed(s, key.value, delivered), key.value);
    }
  }

  lemma InstalledConserves(s: State, generation: nat, channel: nat, key: Key, track: string)
    requires Conserved(s)
    ensures Conserved(Installed(s, generation, channel, key, track))
  {
    if s.active.Some? && s.active.value.generation == generation {
      var t := Attached(s, channel, key, track);
      LoadsUpdate(s.publishers, key, t.publishers[key]);
      DispatchedConserves(t, key);
    }
  }

  lemma UnboundConserves(s: State)
    requires Conserved(s)
    ensures Conserved(Unbound(s))
  {
    SumZero(Loads(Unbound(s).publishers));
  }

  lemma ReconciledConserves(s: State, keys: set<Key>)
    requires Conserved(s)
    ensures Conserved(Reconciled(s, keys))
  {
    var t := Reconciled(s, keys);
    var loads := Loads(s.publishers);
    SumSplit(loads, keys);
    assert Loads(s.publishers - keys) == loads - keys;
    SumSplit(Loads(t.publishers), s.publishers.Keys);
    SumZero(Loads(t.publishers) - s.publishers.Keys);
    assert (map k | k in loads && k in keys :: loads[k])
        == (map k | k in Loads(t.publishers) && k in s.publishers.Keys :: Loads(t.publishers)[k]);
  }

  lemma StepConserves(s: State, event: Event)
    requires Conserved(s)
    ensures Conserved(Step(s, event))
  {
    match event
    case Send(key, payload, waiting) => SentConserves(s, key, payload, waiting);
    case Complete(operation, generation, channel, delivered) =>
      CompletedConserves(s, operation, generation, channel, delivered);
    case Install(generation, channel, key, track) => InstalledConserves(s, generation, channel, key, track);
    case Detach(generation, channel) =>
      if s.active.Some? && channel in s.active.value.channels && s.active.value.channels[channel] in s.publishers {
        LoadsUpdate(s.publishers, s.active.value.channels[channel], IDLE);
      }
    case Bind(_) => UnboundConserves(s);
    case Unbind(_) => UnboundConserves(s);
    case End => UnboundConserves(s);
    case Reconcile(keys) => ReconciledConserves(s, keys);
    case Divert(_, _) =>
    case Suspend(_, _) =>
    case Register(_) =>
  }

  lemma {:induction false} SendsConserved(events: seq<Event>)
    ensures Conserved(Run(events))
    decreases |events|
  {
    if events == [] {
      assert Loads(EMPTY.publishers) == map[];
    } else {
      SendsConserved(events[..|events| - 1]);
      StepConserves(Run(events[..|events| - 1]), events[|events| - 1]);
    }
  }
}
