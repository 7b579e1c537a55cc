/**
 * From the wire to the application: the ordered cursors of one subscription, the
 * receiver they feed, and what the application has read. Any number of tracks.
 */
module EndToEnd {
  import opened Basics
  import opened OrderedDelivery
  import opened DataReceivers

  /**
   * `start` remembers, for each track, the number from which this receiver follows it,
   * and `stood` where a cursor was when its subscription was torn down.
   */
  datatype Flow = Flow(cursors: map<Identity, Cursor>, receiver: Receiver, read: seq<Arrival>,
                       start: map<Identity, nat>, stood: map<Identity, nat>)

  function CursorOf(f: Flow, identity: Identity): Cursor {
    if identity in f.cursors then f.cursors[identity] else FRESH
  }

  function Tagged(identity: Identity, items: seq<Item>): seq<Arrival> {
    seq(|items|, i requires 0 <= i < |items| => Arrival(identity, items[i]))
  }

  function PushedAll(r: Receiver, arrivals: seq<Arrival>): Receiver {
    if arrivals == [] then r
    else Pushed(PushedAll(r, arrivals[..|arrivals| - 1]), arrivals[|arrivals| - 1])
  }

  /** The cursor's result becomes the track's new cursor, and what it emits goes to the receiver. */
  function Fed(f: Flow, identity: Identity, r: Result): Flow {
    f.(cursors := f.cursors[identity := r.cursor],
       receiver := PushedAll(f.receiver, Tagged(identity, r.items)),
       start := if identity !in f.start && r.cursor.next.Some? then f.start[identity := r.cursor.next.value]
         else f.start)
  }

  function Arrived(f: Flow, identity: Identity, body: Body): Flow {
    Fed(f, identity, Handled(CursorOf(f, identity), body))
  }

  function ReadOne(f: Flow): Flow {
    if f.receiver.failure.Some? || f.receiver.queue == [] then f
    else f.(receiver := f.receiver.(queue := f.receiver.queue[1..]), read := f.read + [f.receiver.queue[0]])
  }

  /** Why a subscription's transport goes: a replacement keeps the frontiers, anything else forgets them. */
  datatype Reason = TransportReplaced | ChannelClosed

  function Dropped(f: Flow, tracks: set<Identity>): Flow {
    f.(cursors := f.cursors - tracks,
       stood := map k | k in f.stood.Keys + f.cursors.Keys
                        && (k in f.stood || (k in tracks && CursorOf(f, k).next.Some?)) ::
                  if k in tracks && CursorOf(f, k).next.Some? then CursorOf(f, k).next.value else f.stood[k])
  }

  function Unbound(f: Flow, reason: Reason): Flow {
    match reason
    case TransportReplaced => f.(cursors := map k | k in f.cursors :: Rebound(f.cursors[k]))
    case ChannelClosed => Dropped(f, f.cursors.Keys)
  }

  datatype Event =
    | Arrive(identity: Identity, body: Body)
    | Read
    | Unbind(reason: Reason)
    | EndSource(identity: Identity)
    | Break(failure: string)

  function Step(f: Flow, event: Event): Flow {
    match event
    case Arrive(identity, body) => Arrived(f, identity, body)
    case Read => ReadOne(f)
    case Unbind(reason) => Unbound(f, reason)
    case EndSource(identity) => Dropped(f, {identity})
    case Break(failure) =>
      if f.receiver.failure.Some? then f else f.(receiver := Failed(f.receiver, ChannelFailed(failure)))
  }

  function Run(f: Flow, events: seq<Event>): Flow {
    if events == [] then f else Step(Run(f, events[..|events| - 1]), events[|events| - 1])
  }

  /** What this receiver's application has of a track: what it read and what it still can read. */
  function Received(f: Flow, identity: Identity): seq<Item> {
    Of(f.read + f.receiver.queue, identity)
  }

  /** How far the track has come: its cursor, or where a dropped cursor stood. */
  function Position(f: Flow, identity: Identity): Option<nat> {
    if CursorOf(f, identity).next.Some? then CursorOf(f, identity).next
    else if identity in f.stood then Some(f.stood[identity])
    else None
  }

  /** Numbers of the track since the receiver joined are all there, once and in order, as messages or gaps. */
  ghost predicate TrackComplete(f: Flow, identity: Identity) {
    && (Position(f, identity).Some? <==> identity in f.start)
    && (f.receiver.failure.None? && Accepts(f.receiver, identity) ==>
          if identity in f.start then Tiles(Received(f, identity), f.start[identity], Position(f, identity).value)
          else Received(f, identity) == [])
  }

  /** What holds of cursors and receiver in every run, whatever is dropped. */
  ghost predicate Healthy(f: Flow) {
    && f.receiver.mode == Ordered && ReceiverOk(f.receiver)
    && (forall k | k in f.cursors :: CursorOk(f.cursors[k]) && WithinRange(f.cursors[k]))
  }

  ghost predicate Complete(f: Flow) {
    && Healthy(f)
    && (forall identity {:trigger TrackComplete(f, identity)} :: TrackComplete(f, identity))
  }

  // ---- pushing

  /** One accepted push extends its own track by the item and leaves every other track's interval as it was. */
  lemma PushTiles(r: Receiver, read: seq<Arrival>, a: Arrival, identity: Identity, from: nat, to: nat, end: nat)
    requires ReceiverOk(r) && r.mode == Ordered && Bounded(a) && r.failure.None? && Accepts(r, a.identity)
    requires Pushed(r, a).failure.None?
    requires Tiles(Of(read + r.queue, identity), from, to)
    requires if identity == a.identity then Tiles([a.item], to, end) else end == to
    ensures Tiles(Of(read + Pushed(r, a).queue, identity), from, end)
  {
    var queue := r.queue + [a];
    OfConcat(read + r.queue, [a], identity);
    OfSingle(a, identity);
    assert read + r.queue + [a] == read + queue;
    if identity == a.identity {
      TilesConcat(Of(read + r.queue, identity), [a.item], from, to, end);
    } else {
      assert Of(read + queue, identity) == Of(read + r.queue, identity);
    }
    if |queue| > CAPACITY {
      CompactedTiles(read, queue, identity, from, end);
    }
  }

  lemma FailureLasts(r: Receiver, a: Arrival)
    requires r.failure.Some?
    ensures Pushed(r, a).failure.Some?
  {
  }

  lemma PushedKeeps(r: Receiver, a: Arrival)
    ensures Pushed(r, a).mode == r.mode && Pushed(r, a).participant == r.participant
    ensures !Accepts(r, a.identity) ==> Pushed(r, a) == r
  {
  }

  lemma TilesPrefix(items: seq<Item>, from: nat, to: nat) returns (mid: nat)
    requires items != [] && Tiles(items, from, to)
    ensures Tiles(items[..|items| - 1], from, mid) && Tiles([items[|items| - 1]], mid, to)
  {
    assert items == items[..|items| - 1] + [items[|items| - 1]];
    mid := TilesSplit(items[..|items| - 1], [items[|items| - 1]], from, to);
  }

  ghost predicate AllBounded(items: seq<Item>) {
    forall item | item in items :: item.Delivered? ==> item.message.sequence < U64_MAX
  }

  lemma {:induction false} PushedAllOk(r: Receiver, owner: Identity, items: seq<Item>)
    requires ReceiverOk(r) && AllBounded(items)
    ensures var t := PushedAll(r, Tagged(owner, items));
      && ReceiverOk(t) && t.mode == r.mode && t.participant == r.participant
      && (r.failure.Some? ==> t.failure.Some?)
      && (!Accepts(r, owner) ==> t == r)
    decreases |items|
  {
    if items != [] {
      var last := |items| - 1;
      PushedAllOk(r, owner, items[..last]);
      assert Tagged(owner, items)[..last] == Tagged(owner, items[..last]);
      assert items[last] in items;
      var t := PushedAll(r, Tagged(owner, items[..last]));
      var a := Arrival(owner, items[last]);
      PushedOk(t, a);
      PushedKeeps(t, a);
    }
  }

  lemma {:induction false} PushedAllTiles(r: Receiver, read: seq<Arrival>, owner: Identity, items: seq<Item>,
                                          identity: Identity, from: nat, to: nat, end: nat)
    requires ReceiverOk(r) && r.mode == Ordered && AllBounded(items) && Accepts(r, owner)
    requires PushedAll(r, Tagged(owner, items)).failure.None?
    requires Tiles(Of(read + r.queue, identity), from, to)
    requires if identity == owner then Tiles(items, to, end) else end == to
    ensures Tiles(Of(read + PushedAll(r, Tagged(owner, items)).queue, identity), from, end)
    decreases |items|
  {
    if items != [] {
      var last := |items| - 1;
      assert Tagged(owner, items)[..last] == Tagged(owner, items[..last]);
      PushedAllOk(r, owner, items[..last]);
      var t := PushedAll(r, Tagged(owner, items[..last]));
      var a := Arrival(owner, items[last]);
      assert items[last] in items;
      var all := Pushed(t, a);
      assert PushedAll(r, Tagged(owner, items)) == all;
      if t.failure.Some? { FailureLasts(t, a); }
      var mid := to;
      if identity == owner { mid := TilesPrefix(items, to, end); }
      PushedAllTiles(r, read, owner, items[..last], identity, from, to, mid);
      PushTiles(t, read, a, identity, from, mid, end);
      assert Tiles(Of(read + all.queue, identity), from, end);
    }
  }

  // ---- steps

  lemma {:induction false} TilesBounded(items: seq<Item>, from: nat, to: nat)
    requires Tiles(items, from, to) && to <= U64_MAX
    ensures AllBounded(items)
    decreases |items|
  {
    if items != [] {
      TilesBounded(items[1..], items[0].End(), to);
      TilesGrow(items[1..], items[0].End(), to);
      assert items == [items[0]] + items[1..];
    }
  }

  /** A 64-bit body: its numbers fit, and a message has one of the numbers a publisher issues. */
  ghost predicate Sound(body: Body) {
    match body
    case Frontier(next) => next <= U64_MAX
    case Floor(available) => available <= U64_MAX
    case Data(message) => message.sequence < U64_MAX
  }

  ghost predicate WithinRange(c: Cursor) {
    c.next.Some? ==> c.next.value <= U64_MAX
  }

  lemma {:induction false} DrainWithinRange(next: nat, pending: map<nat, Message>)
    requires BufferOk(next, pending) && next <= U64_MAX
    ensures NextAfterDrain(next, pending) <= U64_MAX
    decreases |pending|
  {
    if next in pending { DrainWithinRange(next + 1, pending - {next}); }
  }

  /** What a cursor's answer to any body must look like, whether or not a frontier was adopted before. */
  ghost predicate Progress(c: Cursor, r: Result) {
    && CursorOk(r.cursor) && WithinRange(r.cursor) && AllBounded(r.items)
    && (c.next.Some? ==> r.cursor.next.Some? && Tiles(r.items, c.next.value, r.cursor.next.value))
    && (c.next.None? ==> r.items == [])
  }

  lemma HandledTrack(c: Cursor, body: Body)
    requires CursorOk(c) && WithinRange(c) && Sound(body)
    ensures Progress(c, Handled(c, body))
  {
    var r := Handled(c, body);
    if c.next.None? {
      assert c == FRESH;
      NothingBeforeFrontier(Receive(body));
    } else {
      HandledAdvances(c, body, []);
      HandledWithinRange(c, body);
      TilesBounded(r.items, c.next.value, r.cursor.next.value);
    }
  }

  lemma HandledWithinRange(c: Cursor, body: Body)
    requires CursorOk(c) && c.next.Some? && WithinRange(c) && Sound(body)
    ensures WithinRange(Handled(c, body).cursor)
  {
    var n := c.next.value;
    match body
    case Frontier(_) => DrainWithinRange(n, c.pending);
    case Floor(available) =>
      if available > n {
        DrainWithinRange(available, map k | k in c.pending && available <= k :: c.pending[k]);
      } else {
        DrainWithinRange(n, c.pending);
      }
    case Data(m) =>
      if m.sequence == n {
        DrainWithinRange(n + 1, c.pending);
      } else {
        DrainWithinRange(n, Buffered(c, m).pending);
      }
  }

  /** A dropped cursor's track is taken up again where the cursor stood. */
  ghost predicate Resumes(f: Flow, identity: Identity, r: Result) {
    CursorOf(f, identity).next.None? && identity in f.start && r.cursor.next.Some? ==>
      r.cursor.next == Position(f, identity)
  }

  lemma FedTrack(f: Flow, owner: Identity, r: Result, identity: Identity)
    requires Healthy(f) && TrackComplete(f, identity)
    requires Progress(CursorOf(f, owner), r) && (identity == owner ==> Resumes(f, owner, r))
    ensures TrackComplete(Fed(f, owner, r), identity)
  {
    var c := CursorOf(f, owner);
    var t := Fed(f, owner, r);
    PushedAllOk(f.receiver, owner, r.items);
    assert r.items == [] ==> Tagged(owner, r.items) == [];
    if t.receiver.failure.None? && Accepts(f.receiver, identity) && Accepts(f.receiver, owner) && c.next.Some? {
      if identity in f.start {
        var at := Position(f, identity).value;
        PushedAllTiles(f.receiver, f.read, owner, r.items, identity, f.start[identity], at,
                       if identity == owner then r.cursor.next.value else at);
      } else {
        PushedAllTiles(f.receiver, f.read, owner, r.items, identity, 0, 0, 0);
        TilesGrow(Received(t, identity), 0, 0);
      }
    }
  }

  lemma ReadTrack(f: Flow, identity: Identity)
    requires TrackComplete(f, identity)
    ensures TrackComplete(ReadOne(f), identity)
  {
    if f.receiver.failure.None? && f.receiver.queue != [] {
      assert f.read + [f.receiver.queue[0]] + f.receiver.queue[1..] == f.read + f.receiver.queue;
    }
  }

  lemma DroppedTrack(f: Flow, tracks: set<Identity>, identity: Identity)
    requires TrackComplete(f, identity)
    ensures TrackComplete(Dropped(f, tracks), identity)
      && Position(Dropped(f, tracks), identity) == Position(f, identity)
  {
  }

  ghost predicate SoundEvent(event: Event) {
    event.Arrive? ==> Sound(event.body)
  }

  /** If the event takes up a dropped track, it does so where its cursor stood. */
  ghost predicate TakesUp(f: Flow, event: Event, identity: Identity) {
    event.Arrive? && event.identity == identity ==>
      Resumes(f, identity, Handled(CursorOf(f, identity), event.body))
  }

  lemma CursorHealthy(f: Flow, identity: Identity)
    requires Healthy(f)
    ensures CursorOk(CursorOf(f, identity)) && WithinRange(CursorOf(f, identity))
  {
  }

  lemma StepHealthy(f: Flow, event: Event)
    requires Healthy(f) && SoundEvent(event)
    ensures Healthy(Step(f, event))
  {
    if event.Arrive? {
      var c := CursorOf(f, event.identity);
      CursorHealthy(f, event.identity);
      HandledTrack(c, event.body);
      PushedAllOk(f.receiver, event.identity, Handled(c, event.body).items);
    }
  }

  /** One track at a time: what happens to others, dropped or not, does not touch it. */
  lemma StepTrack(f: Flow, event: Event, identity: Identity)
    requires Healthy(f) && TrackComplete(f, identity) && SoundEvent(event) && TakesUp(f, event, identity)
    ensures TrackComplete(Step(f, event), identity)
  {
    match event
    case Arrive(owner, body) =>
      CursorHealthy(f, owner);
      HandledTrack(CursorOf(f, owner), body);
      FedTrack(f, owner, Handled(CursorOf(f, owner), body), identity);
    case Read => ReadTrack(f, identity);
    case Unbind(reason) => if reason.ChannelClosed? { DroppedTrack(f, f.cursors.Keys, identity); }
    case EndSource(other) => DroppedTrack(f, {other}, identity);
    case Break(_) =>
  }

  ghost predicate AllSound(events: seq<Event>) {
    forall event | event in events :: SoundEvent(event)
  }

  /** Whenever the run takes up a dropped track, it does so where its cursor stood. */
  ghost predicate TakenUp(f: Flow, events: seq<Event>, identity: Identity) {
    forall i | 0 <= i < |events| :: TakesUp(Run(f, events[..i]), events[i], identity)
  }

  lemma TakenUpPrefix(f: Flow, events: seq<Event>, identity: Identity, n: nat)
    requires TakenUp(f, events, identity) && n <= |events|
    ensures TakenUp(f, events[..n], identity)
  {
    forall i | 0 <= i < n ensures TakesUp(Run(f, events[..n][..i]), events[..n][i], identity) {
      assert events[..n][..i] == events[..i];
    }
  }

  lemma {:induction false} RunHealthy(f: Flow, events: seq<Event>)
    requires Healthy(f) && AllSound(events)
    ensures Healthy(Run(f, events))
    decreases |events|
  {
    if events != [] {
      RunHealthy(f, events[..|events| - 1]);
      StepHealthy(Run(f, events[..|events| - 1]), events[|events| - 1]);
    }
  }

  lemma {:induction false} RunTrack(f: Flow, events: seq<Event>, identity: Identity)
    requires Healthy(f) && TrackComplete(f, identity) && AllSound(events) && TakenUp(f, events, identity)
    ensures TrackComplete(Run(f, events), identity)
    decreases |events|
  {
    if events != [] {
      var last := |events| - 1;
      TakenUpPrefix(f, events, identity, last);
      RunTrack(f, events[..last], identity);
      RunHealthy(f, events[..last]);
      StepTrack(Run(f, events[..last]), events[last], identity);
    }
  }

  /**
   * For every interleaving of arrivals on any number of tracks, reads, transport
   * replacements, torn down subscriptions and ended sources, a working ordered
   * receiver's application gets each track complete: overflow may turn messages into
   * gaps but never loses a number silently, as long as a dropped track is taken up
   * where its cursor stood.
   */
  lemma NoSilentLoss(f: Flow, events: seq<Event>)
    requires Complete(f) && AllSound(events)
    requires forall identity :: TakenUp(f, events, identity)
    ensures Complete(Run(f, events))
  {
    RunHealthy(f, events);
    forall identity ensures TrackComplete(Run(f, events), identity) {
      assert TrackComplete(f, identity) && TakenUp(f, events, identity);
      RunTrack(f, events, identity);
    }
  }

  /** Event `i` of a run makes its track's cursor emit this arrival. */
  ghost predicate Emits(f: Flow, events: seq<Event>, i: nat, a: Arrival)
    requires i < |events|
  {
    && events[i].Arrive? && events[i].identity == a.identity
    && a.item in Handled(CursorOf(Run(f, events[..i]), a.identity), events[i].body).items
  }

  lemma {:induction false} PushedAllMembers(r: Receiver, arrivals: seq<Arrival>)
    ensures forall a | a in PushedAll(r, arrivals).queue :: a in r.queue || a in arrivals || a.item.Gap?
    decreases |arrivals|
  {
    if arrivals != [] {
      var last := |arrivals| - 1;
      PushedAllMembers(r, arrivals[..last]);
      PushedMembers(PushedAll(r, arrivals[..last]), arrivals[last]);
    }
  }

  lemma StepMembers(f: Flow, event: Event, a: Arrival)
    requires a in Step(f, event).read + Step(f, event).receiver.queue && a.item.Delivered?
    ensures a in f.read + f.receiver.queue
      || (event.Arrive? && event.identity == a.identity && a.item in Handled(CursorOf(f, a.identity), event.body).items)
  {
    if event.Arrive? {
      PushedAllMembers(f.receiver, Tagged(event.identity, Handled(CursorOf(f, event.identity), event.body).items));
    }
  }

  /** The application never gets a message that the cursor of its track did not emit. */
  lemma {:induction false} NothingInvented(f: Flow, events: seq<Event>, a: Arrival)
    requires a in Run(f, events).read + Run(f, events).receiver.queue && a.item.Delivered?
    ensures a in f.read + f.receiver.queue || exists i | 0 <= i < |events| :: Emits(f, events, i, a)
    decreases |events|
  {
    if events != [] {
      var last := |events| - 1;
      var before := Run(f, events[..last]);
      StepMembers(before, events[last], a);
      if a in before.read + before.receiver.queue {
        NothingInvented(f, events[..last], a);
        if i :| 0 <= i < last && Emits(f, events[..last], i, a) {
          assert events[..last][..i] == events[..i];
          assert Emits(f, events, i, a);
        }
      } else {
        assert Emits(f, events, last, a);
      }
    }
  }

  /** A receiver opened on any subscription starts complete: it follows each track from the cursor it finds. */
  lemma OpeningIsComplete(cursors: map<Identity, Cursor>, participant: Option<string>)
    requires forall k | k in cursors :: CursorOk(cursors[k]) && WithinRange(cursors[k])
    ensures Complete(Flow(cursors, Receiver(Ordered, participant, [], None), [],
                          map k | k in cursors && cursors[k].next.Some? :: cursors[k].next.value, map[]))
  {
    var f := Flow(cursors, Receiver(Ordered, participant, [], None), [],
                  map k | k in cursors && cursors[k].next.Some? :: cursors[k].next.value, map[]);
    forall identity ensures TrackComplete(f, identity) {
    }
  }
}
