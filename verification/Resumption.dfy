/** What the application sees when a torn down ordered subscription is taken up again. */
module Resumption {
  import opened Basics
  import opened OrderedDelivery
  import opened DataReceivers
  import opened EndToEnd

  type Event = EndToEnd.Event

  lemma {:induction false} TilesEndUnique(items: seq<Item>, from: nat, a: nat, b: nat)
    requires Tiles(items, from, a) && Tiles(items, from, b)
    ensures a == b
    decreases |items|
  {
    if items != [] { TilesEndUnique(items[1..], items[0].End(), a, b); }
  }

  lemma TilesOne(item: Item, from: nat, to: nat)
    ensures Tiles([item], from, to) <==> item.Start() == from < item.End() == to
  {
    assert [item][1..] == [];
  }

  lemma JoinIff(first: seq<Item>, item: Item, from: nat, mid: nat, to: nat)
    requires Tiles(first, from, mid) && item.Start() < item.End() == to
    ensures Tiles(first + [item], from, to) <==> item.Start() == mid
  {
    TilesOne(item, mid, to);
    if item.Start() == mid {
      TilesConcat(first, [item], from, mid, to);
    }
    if Tiles(first + [item], from, to) {
      var m := TilesSplit(first, [item], from, to);
      TilesEndUnique(first, from, mid, m);
    }
  }

  /** The track was followed, its cursor was dropped, and the receiver is still read. */
  ghost predicate Adrift(f: Flow, identity: Identity) {
    && Healthy(f) && TrackComplete(f, identity)
    && f.receiver.failure.None? && Accepts(f.receiver, identity)
    && identity in f.start && CursorOf(f, identity).next.None?
  }

  /** The track taken up at a message's number, and the message. */
  function TakenAt(f: Flow, identity: Identity, message: Message): Flow {
    Arrived(Arrived(f, identity, Frontier(message.sequence)), identity, Data(message))
  }

  lemma TakenPushes(f: Flow, identity: Identity, message: Message)
    requires Healthy(f) && CursorOf(f, identity).next.None? && identity in f.start && message.sequence < U64_MAX
    ensures var t := TakenAt(f, identity, message);
      && t.receiver == Pushed(f.receiver, Arrival(identity, Delivered(message)))
      && t.read == f.read && t.start == f.start && CursorOf(t, identity).next == Some(message.sequence + 1)
  {
    CursorHealthy(f, identity);
    assert CursorOf(f, identity) == FRESH;
    var g := Arrived(f, identity, Frontier(message.sequence));
    NothingBeforeFrontier(Receive(Frontier(message.sequence)));
    assert Tagged(identity, []) == [];
    var c := Cursor(Some(message.sequence), map[]);
    assert CursorOf(g, identity) == c && g.receiver == f.receiver;
    assert Contiguous(message.sequence + 1, map[]) == [] && Items([]) == [];
    var a := Arrival(identity, Delivered(message));
    assert Handled(c, Data(message)).items == [Delivered(message)];
    assert Tagged(identity, [Delivered(message)]) == [a] && [a][..0] == [];
    assert PushedAll(f.receiver, [a]) == Pushed(PushedAll(f.receiver, []), a);
  }

  /** The queue is full of different tracks, one of them this one: the newest arrival is folded into its item. */
  predicate Joins(queue: seq<Arrival>, identity: Identity) {
    |queue| == CAPACITY && AllDistinct(queue) && Seen(queue, identity)
  }

  lemma AppendedOf(read: seq<Arrival>, queue: seq<Arrival>, a: Arrival)
    ensures Of(read + (queue + [a]), a.identity) == Of(read + queue, a.identity) + [a.item]
  {
    assert read + (queue + [a]) == read + queue + [a];
    OfConcat(read + queue, [a], a.identity);
    OfSingle(a, a.identity);
  }

  lemma AppendedTiles(read: seq<Arrival>, queue: seq<Arrival>, a: Arrival, from: nat, at: nat)
    requires Tiles(Of(read + queue, a.identity), from, at) && a.item.Delivered?
    ensures Tiles(Of(read + (queue + [a]), a.identity), from, a.item.End()) <==> a.item.Start() == at
  {
    AppendedOf(read, queue, a);
    JoinIff(Of(read + queue, a.identity), a.item, from, at, a.item.End());
  }

  lemma JoinedTiles(read: seq<Arrival>, queue: seq<Arrival>, a: Arrival, from: nat, at: nat)
    requires Tiles(Of(read + queue, a.identity), from, at) && a.item.Delivered?
    requires AllDistinct(queue) && Seen(queue, a.identity) && Compacted(queue + [a]).Some?
    ensures Tiles(Of(read + Compacted(queue + [a]).value, a.identity), from, a.item.End()) <==> at <= a.item.End()
  {
    var earlier, after := Of(read, a.identity), Compacted(queue + [a]).value;
    OfDistinct(queue, a.identity);
    var i := Of(queue, a.identity)[0];
    assert Of(queue, a.identity) == [i];
    CompactedJoins(queue, a, i);
    OfConcat(read, queue, a.identity);
    OfConcat(read, after, a.identity);
    var mid := TilesSplit(earlier, [i], from, at);
    TilesOne(i, mid, at);
    var gap := Gap(mid, Max(at, a.item.End()));
    JoinIff(earlier, gap, from, mid, gap.to);
    if Tiles(earlier + [gap], from, a.item.End()) {
      TilesEndUnique(earlier + [gap], from, gap.to, a.item.End());
    }
  }

  /**
   * Taking a dropped track up at a message: the application's view is complete
   * exactly when the message is the one the cursor stood at, or, when the full queue
   * folds it into the track's one item, when it is not behind that number.
   */
  lemma ResumptionExactly(f: Flow, identity: Identity, message: Message, t: Flow)
    requires Adrift(f, identity) && message.sequence < U64_MAX && t == TakenAt(f, identity, message)
    ensures t.receiver.failure.Some? <==>
      |f.receiver.queue| == CAPACITY && AllDistinct(f.receiver.queue) && !Seen(f.receiver.queue, identity)
    ensures t.receiver.failure.None? ==>
      (Tiles(Received(t, identity), f.start[identity], message.sequence + 1) <==>
         if Joins(f.receiver.queue, identity) then Position(f, identity).value <= message.sequence + 1
         else Position(f, identity).value == message.sequence)
  {
    var a, queue := Arrival(identity, Delivered(message)), f.receiver.queue;
    var from, at := f.start[identity], Position(f, identity).value;
    TakenPushes(f, identity, message);
    OverflowExactly(f.receiver, a);
    DistinctAppend(queue, a);
    if |queue| < CAPACITY {
      AppendedTiles(f.read, queue, a, from, at);
    } else if AllDistinct(queue) {
      if Seen(queue, identity) { JoinedTiles(f.read, queue, a, from, at); }
    } else {
      CompactedAppend(queue, a);
      CompactedTiles(f.read, queue, identity, from, at);
      AppendedTiles(f.read, Compacted(queue).value, a, from, at);
    }
  }

  lemma DistinctAppend(queue: seq<Arrival>, a: Arrival)
    ensures AllDistinct(queue + [a]) <==> AllDistinct(queue) && !Seen(queue, a.identity)
  {
    var more := queue + [a];
    if AllDistinct(more) {
      forall i, j | 0 <= i < j < |queue| ensures queue[i].identity != queue[j].identity {
        assert more[i].identity != more[j].identity;
      }
      forall i | 0 <= i < |queue| ensures queue[i].identity != a.identity {
        assert more[i].identity != more[|queue|].identity;
      }
    }
  }

  // ---- every continuation

  /** No event of the continuation drops a cursor. */
  ghost predicate Gentle(events: seq<Event>) {
    AllSound(events) && forall event | event in events :: !event.EndSource? && event != Unbind(ChannelClosed)
  }

  /** What a working receiver's application has of an adopted track since it joined tiles up to the cursor. */
  ghost predicate Whole(f: Flow, identity: Identity) {
    var c := CursorOf(f, identity);
    f.receiver.failure.None? && Accepts(f.receiver, identity) && identity in f.start && c.next.Some? ==>
      Tiles(Received(f, identity), f.start[identity], c.next.value)
  }

  ghost predicate Attached(f: Flow, identity: Identity) {
    identity in f.start ==> CursorOf(f, identity).next.Some?
  }

  lemma FedAttached(f: Flow, owner: Identity, r: Result, identity: Identity, t: Flow)
    requires Attached(f, identity) && (CursorOf(f, owner).next.Some? ==> r.cursor.next.Some?) && t == Fed(f, owner, r)
    ensures Attached(t, identity)
  {
  }

  lemma FrontierStays(c: Cursor, body: Body)
    requires c.next.Some?
    ensures Handled(c, body).cursor.next.Some?
  {
  }

  lemma ArrivedAttached(f: Flow, owner: Identity, body: Body, identity: Identity, t: Flow)
    requires Attached(f, identity) && t == Arrived(f, owner, body)
    ensures Attached(t, identity)
  {
    var c := CursorOf(f, owner);
    if c.next.Some? { FrontierStays(c, body); }
    FedAttached(f, owner, Handled(c, body), identity, t);
  }

  lemma StepAttached(f: Flow, event: Event, identity: Identity, t: Flow)
    requires Attached(f, identity) && t == EndToEnd.Step(f, event)
    requires !event.EndSource? && event != Unbind(ChannelClosed)
    ensures Attached(t, identity)
  {
    if event.Arrive? {
      ArrivedAttached(f, event.identity, event.body, identity, t);
    } else if event.Unbind? {
      ReplacedAttached(f, identity, t);
    } else {
      SameAttached(f, t, identity);
    }
  }

  lemma SameAttached(f: Flow, t: Flow, identity: Identity)
    requires Attached(f, identity) && t.cursors == f.cursors && t.start == f.start
    ensures Attached(t, identity)
  {
  }

  lemma ReplacedAttached(f: Flow, identity: Identity, t: Flow)
    requires Attached(f, identity) && t == Unbound(f, TransportReplaced)
    ensures Attached(t, identity)
  {
  }

  lemma AttachedTakesUp(f: Flow, event: Event, identity: Identity)
    requires Attached(f, identity)
    ensures TakesUp(f, event, identity)
  {
  }

  lemma {:induction false} RunAttached(f: Flow, events: seq<Event>, identity: Identity)
    requires Healthy(f) && Attached(f, identity) && TrackComplete(f, identity) && Gentle(events)
    ensures Healthy(EndToEnd.Run(f, events)) && Attached(EndToEnd.Run(f, events), identity)
      && TrackComplete(EndToEnd.Run(f, events), identity)
    decreases |events|
  {
    if events != [] {
      var last := |events| - 1;
      RunAttached(f, events[..last], identity);
      assert events[last] in events;
      StepAttached(EndToEnd.Run(f, events[..last]), events[last], identity, EndToEnd.Run(f, events));
      AttachedTakesUp(EndToEnd.Run(f, events[..last]), events[last], identity);
      StepHealthy(EndToEnd.Run(f, events[..last]), events[last]);
      StepTrack(EndToEnd.Run(f, events[..last]), events[last], identity);
    }
  }

  function Reads(n: nat): seq<Event> {
    if n == 0 then [] else Reads(n - 1) + [Read]
  }

  lemma RunLast(f: Flow, events: seq<Event>, last: Event)
    ensures EndToEnd.Run(f, events + [last]) == EndToEnd.Step(EndToEnd.Run(f, events), last)
  {
    assert (events + [last])[..|events|] == events;
  }

  lemma {:induction false} ReadsDrain(f: Flow, n: nat)
    requires f.receiver.failure.None? && n <= |f.receiver.queue|
    ensures EndToEnd.Run(f, Reads(n)) ==
      f.(receiver := f.receiver.(queue := f.receiver.queue[n..]), read := f.read + f.receiver.queue[..n])
    ensures Gentle(Reads(n))
  {
    if n > 0 {
      ReadsDrain(f, n - 1);
      RunLast(f, Reads(n - 1), Read);
      var queue := f.receiver.queue;
      assert queue[n - 1..][1..] == queue[n..];
      assert f.read + queue[..n - 1] + [queue[n - 1]] == f.read + queue[..n];
    } else {
      assert f.receiver.queue[..0] == [] && f.read + [] == f.read && f.receiver.queue[0..] == f.receiver.queue;
    }
  }

  lemma DrainedAdrift(f: Flow, identity: Identity, g: Flow)
    requires Adrift(f, identity) && g == EndToEnd.Run(f, Reads(|f.receiver.queue|))
    ensures Adrift(g, identity) && g.receiver.queue == [] && Gentle(Reads(|f.receiver.queue|))
    ensures Position(g, identity) == Position(f, identity) && g.start == f.start
  {
    var queue := f.receiver.queue;
    ReadsDrain(f, |queue|);
    assert queue[..|queue|] == queue && queue[|queue|..] == [];
    assert g.read + g.receiver.queue == f.read + queue;
  }

  lemma TakenBreaks(f: Flow, identity: Identity, message: Message, t: Flow)
    requires Adrift(f, identity) && f.receiver.queue == [] && message.sequence < U64_MAX
    requires Position(f, identity) != Some(message.sequence) && t == TakenAt(f, identity, message)
    ensures !Whole(t, identity)
  {
    ResumptionExactly(f, identity, message, t);
    TakenPushes(f, identity, message);
    PushedKeeps(f.receiver, Arrival(identity, Delivered(message)));
  }

  function Taking(identity: Identity, message: Message): seq<Event> {
    [Arrive(identity, Frontier(message.sequence)), Arrive(identity, Data(message))]
  }

  lemma RunTaking(f: Flow, events: seq<Event>, identity: Identity, message: Message)
    ensures EndToEnd.Run(f, events + Taking(identity, message)) == TakenAt(EndToEnd.Run(f, events), identity, message)
  {
    var frontier, data := Arrive(identity, Frontier(message.sequence)), Arrive(identity, Data(message));
    RunLast(f, events, frontier);
    RunLast(f, events + [frontier], data);
    assert events + Taking(identity, message) == events + [frontier] + [data];
  }

  lemma TakingBreaks(f: Flow, events: seq<Event>, g: Flow, identity: Identity, message: Message)
    requires g == EndToEnd.Run(f, events) && Adrift(g, identity) && g.receiver.queue == []
    requires message.sequence < U64_MAX && Position(g, identity) != Some(message.sequence)
    ensures !Whole(EndToEnd.Run(f, events + Taking(identity, message)), identity)
  {
    RunTaking(f, events, identity, message);
    TakenBreaks(g, identity, message, TakenAt(g, identity, message));
  }

  lemma GentleTaking(events: seq<Event>, identity: Identity, message: Message)
    requires Gentle(events) && message.sequence < U64_MAX
    ensures Gentle(events + Taking(identity, message))
  {
  }

  /** From a track that is adrift some continuation reads everything and then misses numbers without a gap. */
  lemma AdriftBreaks(f: Flow, identity: Identity) returns (events: seq<Event>)
    requires Adrift(f, identity)
    ensures Gentle(events) && !Whole(EndToEnd.Run(f, events), identity)
  {
    var message := Message(if Position(f, identity) == Some(0) then 1 else 0, []);
    var drain := Reads(|f.receiver.queue|);
    var g := EndToEnd.Run(f, drain);
    DrainedAdrift(f, identity, g);
    TakingBreaks(f, drain, g, identity, message);
    GentleTaking(drain, identity, message);
    events := drain + Taking(identity, message);
  }

  /**
   * Unbinding a subscription is harmless to a working receiver's track, whatever
   * follows, exactly when the receiver does not follow the track yet, or the
   * transport was replaced and the track's cursor was there to be kept.
   */
  lemma UnbindingIsHarmlessUnless(f: Flow, identity: Identity, reason: Reason)
    requires Healthy(f) && TrackComplete(f, identity)
    requires f.receiver.failure.None? && Accepts(f.receiver, identity)
    ensures (forall events | Gentle(events) :: Whole(EndToEnd.Run(Unbound(f, reason), events), identity)) <==>
      (identity in f.start ==> reason == TransportReplaced && CursorOf(f, identity).next.Some?)
  {
    var g := Unbound(f, reason);
    StepHealthy(f, Unbind(reason));
    StepTrack(f, Unbind(reason), identity);
    if identity in f.start ==> reason == TransportReplaced && CursorOf(f, identity).next.Some? {
      forall events | Gentle(events) ensures Whole(EndToEnd.Run(g, events), identity) {
        RunAttached(g, events, identity);
      }
    } else {
      assert Adrift(g, identity);
      var events := AdriftBreaks(g, identity);
    }
  }
}
