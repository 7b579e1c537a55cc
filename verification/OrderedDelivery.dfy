/**
 * Ordered delivery of one data track: a cursor with a bounded reorder buffer,
 * driven by frontiers, floors, messages and transport rebinds in any order.
 */
module OrderedDelivery {
  import opened Basics

  const REORDER_CAPACITY: nat := 256

  type Payload = seq<nat>

  datatype Message = Message(sequence: nat, payload: Payload)

  /** What the application sees: messages in order, and explicit gaps. */
  datatype Item = Delivered(message: Message) | Gap(from: nat, to: nat) {
    function Start(): nat { if Delivered? then message.sequence else from }
    function End(): nat { if Delivered? then message.sequence + 1 else to }
  }

  datatype Cursor = Cursor(next: Option<nat>, pending: map<nat, Message>)

  const FRESH := Cursor(None, map[])

  datatype Body = Frontier(next: nat) | Floor(available: nat) | Data(message: Message)

  datatype Result = Result(cursor: Cursor, items: seq<Item>, nack: Option<nat>)

  /** 64-bit saturating increment. */
  function Successor(n: nat): nat {
    if n < U64_MAX then n + 1 else U64_MAX
  }

  /** The messages the buffer can deliver without a hole, from `next` on. */
  function Contiguous(next: nat, pending: map<nat, Message>): seq<Message>
    decreases |pending|
  {
    if next in pending then [pending[next]] + Contiguous(Successor(next), pending - {next}) else []
  }

  function NextAfterDrain(next: nat, pending: map<nat, Message>): nat
    decreases |pending|
  {
    if next in pending then NextAfterDrain(Successor(next), pending - {next}) else next
  }

  function PendingAfterDrain(next: nat, pending: map<nat, Message>): map<nat, Message>
    decreases |pending|
  {
    if next in pending then PendingAfterDrain(Successor(next), pending - {next}) else pending
  }

  function Items(messages: seq<Message>): seq<Item> {
    seq(|messages|, i requires 0 <= i < |messages| => Delivered(messages[i]))
  }

  /** Delivers what the buffer holds and asks for the next message while the buffer is not empty. */
  function Drained(cursor: Cursor, before: seq<Item>): Result {
    if cursor.next.None? then Result(cursor, before, None)
    else
      var n := cursor.next.value;
      var next := NextAfterDrain(n, cursor.pending);
      var pending := PendingAfterDrain(n, cursor.pending);
      Result(Cursor(Some(next), pending), before + Items(Contiguous(n, cursor.pending)),
             if pending != map[] then Some(next) else None)
  }

  function Buffered(cursor: Cursor, message: Message): Cursor
    requires cursor.next.Some?
  {
    if message.sequence > cursor.next.value && message.sequence !in cursor.pending
       && |cursor.pending| < REORDER_CAPACITY
    then cursor.(pending := cursor.pending[message.sequence := message])
    else cursor
  }

  function Accepted(cursor: Cursor, message: Message): Result {
    if cursor.next.None? then Result(cursor, [], None)
    else if message.sequence == cursor.next.value then
      Drained(cursor.(next := Some(Successor(cursor.next.value))), [Delivered(message)])
    else
      var r := Drained(Buffered(cursor, message), []);
      if message.sequence > cursor.next.value && r.items == [] then r.(nack := r.cursor.next) else r
  }

  function Handled(cursor: Cursor, body: Body): Result {
    match body
    case Frontier(next) => Drained(if cursor.next.None? then cursor.(next := Some(next)) else cursor, [])
    case Floor(available) =>
      if cursor.next.Some? && available > cursor.next.value then
        var pending := map k | k in cursor.pending && available <= k :: cursor.pending[k];
        Drained(Cursor(Some(available), pending), [Gap(cursor.next.value, available)])
      else Drained(cursor, [])
    case Data(message) => Accepted(cursor, message)
  }

  /** A transport fence keeps the frontier and drops the buffer. */
  function Rebound(cursor: Cursor): Cursor {
    cursor.(pending := map[])
  }

  // ---- what holds of every cursor

  ghost predicate CursorOk(cursor: Cursor) {
    && |cursor.pending| <= REORDER_CAPACITY
    && (cursor.next.None? ==> cursor.pending == map[])
    && (forall k | k in cursor.pending ::
          cursor.pending[k].sequence == k && cursor.next.Some? && cursor.next.value < k < U64_MAX)
  }

  /** The items cover exactly [from, to), once and in order. */
  ghost predicate Tiles(items: seq<Item>, from: nat, to: nat)
    decreases |items|
  {
    if items == [] then from == to
    else items[0].Start() == from && from < items[0].End() && Tiles(items[1..], items[0].End(), to)
  }

  lemma {:induction false} TilesConcat(first: seq<Item>, rest: seq<Item>, from: nat, mid: nat, to: nat)
    requires Tiles(first, from, mid) && Tiles(rest, mid, to)
    ensures Tiles(first + rest, from, to)
    decreases |first|
  {
    if first == [] {
      assert first + rest == rest;
    } else {
      assert (first + rest)[1..] == first[1..] + rest;
      TilesConcat(first[1..], rest, first[0].End(), mid, to);
    }
  }

  lemma {:induction false} TilesGrow(items: seq<Item>, from: nat, to: nat)
    requires Tiles(items, from, to)
    ensures from <= to && (items == [] <==> from == to)
    decreases |items|
  {
    if items != [] { TilesGrow(items[1..], items[0].End(), to); }
  }

  predicate Covers(item: Item, k: nat) {
    item.Start() <= k < item.End()
  }

  /** Tiling means exactly once: every number in the interval is covered by one item, and no other number by any. */
  lemma {:induction false} CoveredExactlyOnce(items: seq<Item>, from: nat, to: nat, k: nat)
    requires Tiles(items, from, to)
    ensures from <= k < to ==> exists i | 0 <= i < |items| :: Covers(items[i], k)
    ensures forall i, j | 0 <= i < |items| && 0 <= j < |items| && Covers(items[i], k) && Covers(items[j], k) :: i == j
    ensures forall i | 0 <= i < |items| && Covers(items[i], k) :: from <= k < to
    decreases |items|
  {
    if items != [] {
      TilesGrow(items, from, to);
      TilesGrow(items[1..], items[0].End(), to);
      CoveredExactlyOnce(items[1..], items[0].End(), to, k);
      if items[0].End() <= k < to {
        var i :| 0 <= i < |items[1..]| && Covers(items[1..][i], k);
        assert Covers(items[i + 1], k);
      } else if from <= k < to {
        assert Covers(items[0], k);
      }
      forall i | 0 < i < |items| && Covers(items[i], k) ensures items[0].End() <= k < to {
        assert items[1..][i - 1] == items[i];
      }
      forall i, j | 0 < i < |items| && 0 < j < |items| && Covers(items[i], k) && Covers(items[j], k) ensures i == j {
        assert items[1..][i - 1] == items[i] && items[1..][j - 1] == items[j];
      }
    }
  }

  /** A buffer whose keys all lie at or above `next`. */
  ghost predicate BufferOk(next: nat, pending: map<nat, Message>) {
    forall k | k in pending :: pending[k].sequence == k && next <= k < U64_MAX
  }

  lemma {:induction false} DrainTiles(next: nat, pending: map<nat, Message>)
    requires BufferOk(next, pending)
    ensures Tiles(Items(Contiguous(next, pending)), next, NextAfterDrain(next, pending))
    ensures var rest := PendingAfterDrain(next, pending);
      && |rest| <= |pending|
      && (forall k | k in rest :: k in pending && rest[k] == pending[k] && NextAfterDrain(next, pending) < k)
    ensures forall m | m in Contiguous(next, pending) :: m.sequence in pending && pending[m.sequence] == m
    decreases |pending|
  {
    if next in pending {
      DrainTiles(next + 1, pending - {next});
      var messages := Contiguous(next, pending);
      assert Items(messages)[1..] == Items(messages[1..]);
      assert messages[1..] == Contiguous(next + 1, pending - {next});
    }
  }

  /** An item says what the publisher logged, or admits a gap. */
  ghost predicate Authentic(m: Message, log: seq<Payload>) {
    m.sequence < |log| && m.payload == log[m.sequence]
  }

  ghost predicate AuthenticCursor(cursor: Cursor, log: seq<Payload>) {
    forall k | k in cursor.pending :: Authentic(cursor.pending[k], log)
  }

  ghost predicate AuthenticItems(items: seq<Item>, log: seq<Payload>) {
    forall item | item in items :: item.Delivered? ==> Authentic(item.message, log)
  }

  lemma DrainedOk(cursor: Cursor, before: seq<Item>, from: nat, log: seq<Payload>)
    requires cursor.next.Some? && BufferOk(cursor.next.value, cursor.pending)
    requires |cursor.pending| <= REORDER_CAPACITY
    requires Tiles(before, from, cursor.next.value)
    ensures var r := Drained(cursor, before);
      && CursorOk(r.cursor) && r.cursor.next.Some?
      && Tiles(r.items, from, r.cursor.next.value)
      && (r.nack.Some? <==> r.cursor.pending != map[]) && (r.nack.Some? ==> r.nack == r.cursor.next)
    ensures AuthenticCursor(cursor, log) && AuthenticItems(before, log) ==>
      var r := Drained(cursor, before); AuthenticCursor(r.cursor, log) && AuthenticItems(r.items, log)
  {
    var n := cursor.next.value;
    DrainTiles(n, cursor.pending);
    TilesConcat(before, Items(Contiguous(n, cursor.pending)), from, n, NextAfterDrain(n, cursor.pending));
    if AuthenticCursor(cursor, log) && AuthenticItems(before, log) {
      var messages := Contiguous(n, cursor.pending);
      forall item | item in before + Items(messages) && item.Delivered? ensures Authentic(item.message, log) {
        if item in Items(messages) { assert item.message in messages; }
      }
    }
  }

  /** A body that a publisher of `log` may have sent. */
  ghost predicate AuthenticBody(body: Body, log: seq<Payload>) {
    match body
    case Frontier(next) => next <= |log|
    case Floor(available) => available <= |log|
    case Data(message) => Authentic(message, log)
  }

  /** Sequence numbers a publisher can issue. */
  ghost predicate Issuable(body: Body) {
    body.Data? ==> body.message.sequence < U64_MAX
  }

  /** A result moves an adopted cursor forward by exactly what it emits, and asks for a hole it knows of. */
  ghost predicate Advances(cursor: Cursor, r: Result) {
    && cursor.next.Some? && r.cursor.next.Some?
    && CursorOk(r.cursor)
    && Tiles(r.items, cursor.next.value, r.cursor.next.value)
    && (r.cursor.pending != map[] ==> r.nack == r.cursor.next)
    && (r.nack.Some? ==> r.nack == r.cursor.next)
  }

  lemma FloorAdvances(cursor: Cursor, available: nat, log: seq<Payload>)
    requires CursorOk(cursor) && cursor.next.Some? && available > cursor.next.value
    ensures var r := Handled(cursor, Floor(available));
      && Advances(cursor, r)
      && (AuthenticCursor(cursor, log) ==> AuthenticCursor(r.cursor, log) && AuthenticItems(r.items, log))
  {
    var n := cursor.next.value;
    var pending := map k | k in cursor.pending && available <= k :: cursor.pending[k];
    SubmapSize(pending, cursor.pending);
    assert Tiles([Gap(n, available)][1..], available, available);
    DrainedOk(Cursor(Some(available), pending), [Gap(n, available)], n, log);
  }

  lemma DataAdvances(cursor: Cursor, m: Message, log: seq<Payload>)
    requires CursorOk(cursor) && cursor.next.Some? && m.sequence < U64_MAX
    ensures var r := Accepted(cursor, m);
      && Advances(cursor, r)
      && (AuthenticCursor(cursor, log) && Authentic(m, log) ==>
            AuthenticCursor(r.cursor, log) && AuthenticItems(r.items, log))
  {
    var n := cursor.next.value;
    if m.sequence == n {
      assert Tiles([Delivered(m)][1..], n + 1, n + 1);
      DrainedOk(cursor.(next := Some(n + 1)), [Delivered(m)], n, log);
    } else {
      DrainedOk(Buffered(cursor, m), [], n, log);
    }
  }

  /** Every body keeps the buffer bounded and above the cursor, and what is emitted is what was published. */
  lemma HandledAdvances(cursor: Cursor, body: Body, log: seq<Payload>)
    requires CursorOk(cursor) && cursor.next.Some? && Issuable(body)
    ensures var r := Handled(cursor, body);
      && Advances(cursor, r)
      && (AuthenticCursor(cursor, log) && AuthenticBody(body, log) ==>
            AuthenticCursor(r.cursor, log) && AuthenticItems(r.items, log))
  {
    if body.Data? {
      DataAdvances(cursor, body.message, log);
    } else if body.Floor? && body.available > cursor.next.value {
      FloorAdvances(cursor, body.available, log);
    } else {
      DrainedOk(cursor, [], cursor.next.value, log);
    }
  }

  /** A message ahead of the cursor either leads to delivery or is answered by a request for the hole. */
  lemma HoleIsRequested(cursor: Cursor, m: Message)
    requires CursorOk(cursor) && cursor.next.Some? && cursor.next.value < m.sequence < U64_MAX
    ensures var r := Accepted(cursor, m); r.nack == r.cursor.next == cursor.next && r.items == []
  {
    DataAdvances(cursor, m, []);
  }

  lemma SubmapSize(small: map<nat, Message>, big: map<nat, Message>)
    requires small.Keys <= big.Keys
    ensures |small| <= |big|
  {
    SubsetSize(small.Keys, big.Keys);
  }

  lemma {:induction false} SubsetSize(a: set<nat>, b: set<nat>)
    requires a <= b
    ensures |a| <= |b|
    decreases |a|
  {
    if x :| x in a { SubsetSize(a - {x}, b - {x}); }
  }

  // ---- runs of one source

  datatype Event = Receive(body: Body) | Rebind

  function Step(cursor: Cursor, event: Event): Result {
    match event
    case Receive(body) => Handled(cursor, body)
    case Rebind => Result(Rebound(cursor), [], None)
  }

  function Run(cursor: Cursor, events: seq<Event>): Cursor {
    if events == [] then cursor else Step(Run(cursor, events[..|events| - 1]), events[|events| - 1]).cursor
  }

  function Emitted(cursor: Cursor, events: seq<Event>): seq<Item> {
    if events == [] then []
    else
      var last := |events| - 1;
      Emitted(cursor, events[..last]) + Step(Run(cursor, events[..last]), events[last]).items
  }

  ghost predicate AllIssuable(events: seq<Event>) {
    forall event | event in events :: event.Receive? ==> Issuable(event.body)
  }

  /**
   * Once a frontier is adopted, whatever arrives, is lost, repeated or reordered,
   * and however often the transport is replaced, what was emitted covers exactly
   * the numbers from the frontier to the cursor.
   */
  lemma {:induction false} EmittedTiles(cursor: Cursor, events: seq<Event>)
    requires CursorOk(cursor) && cursor.next.Some? && AllIssuable(events)
    ensures var c := Run(cursor, events);
      CursorOk(c) && c.next.Some? && Tiles(Emitted(cursor, events), cursor.next.value, c.next.value)
    decreases |events|
  {
    if events != [] {
      var last := |events| - 1;
      EmittedTiles(cursor, events[..last]);
      var c := Run(cursor, events[..last]);
      var r := Step(c, events[last]);
      if events[last].Receive? {
        HandledAdvances(c, events[last].body, []);
      }
      TilesConcat(Emitted(cursor, events[..last]), r.items, cursor.next.value, c.next.value, r.cursor.next.value);
    }
  }

  /** Before a frontier is adopted nothing is emitted or buffered, and only a frontier changes that. */
  lemma NothingBeforeFrontier(event: Event)
    ensures var r := Step(FRESH, event);
      && r.items == [] && r.nack.None?
      && r.cursor == (if event.Receive? && event.body.Frontier? then Cursor(Some(event.body.next), map[]) else FRESH)
  {
  }

  /**
   * The one number that cannot be tiled: a message numbered 2^64-1 is delivered
   * without moving the cursor, so its repetition is delivered again.
   */
  lemma MaximumIsDeliveredTwice(m: Message)
    requires m.sequence == U64_MAX
    ensures var c := Cursor(Some(U64_MAX), map[]);
      && CursorOk(c) && Run(c, Twice(m)) == c
      && Emitted(c, Twice(m)) == [Delivered(m), Delivered(m)]
      && !Tiles(Emitted(c, Twice(m)), U64_MAX, U64_MAX)
  {
    var c := Cursor(Some(U64_MAX), map[]);
    var event := Receive(Data(m));
    var r := Step(c, event);
    assert Contiguous(U64_MAX, map[]) == [] && Items([]) == [];
    assert r == Result(c, [Delivered(m)], None);
    assert [event, event][..1] == [event] && [event][..0] == [];
    assert Run(c, []) == c && Run(c, [event]) == c;
    assert Emitted(c, [event]) == [] + r.items;
  }

  function Twice(m: Message): seq<Event> {
    [Receive(Data(m)), Receive(Data(m))]
  }

  ghost predicate TilesTwice(cursor: Cursor, m: Message)
    requires cursor.next.Some?
  {
    var c := Run(cursor, Twice(m));
    c.next.Some? && Tiles(Emitted(cursor, Twice(m)), cursor.next.value, c.next.value)
  }

  /** Repeating a 64-bit number is harmless at every cursor exactly when it is not the largest one. */
  lemma RepetitionIsHarmless(m: Message)
    requires m.sequence <= U64_MAX
    ensures (forall c: Cursor | CursorOk(c) && c.next.Some? :: TilesTwice(c, m)) <==> m.sequence < U64_MAX
  {
    if m.sequence < U64_MAX {
      forall c: Cursor | CursorOk(c) && c.next.Some? ensures TilesTwice(c, m) {
        EmittedTiles(c, Twice(m));
      }
    } else {
      MaximumIsDeliveredTwice(m);
      assert !TilesTwice(Cursor(Some(U64_MAX), map[]), m);
    }
  }

  // ---- the object

  class Delivery {
    var nextSequence: Option<nat>
    var pending: map<nat, Message>

    ghost function View(): Cursor
      reads this
    {
      Cursor(nextSequence, pending)
    }

    constructor ()
      ensures View() == FRESH
    {
      nextSequence, pending := None, map[];
    }

    method Drain() returns (messages: seq<Message>, nack: Option<nat>)
      modifies this
      ensures Result(View(), Items(messages), nack) == Drained(old(View()), [])
    {
      messages := [];
      if nextSequence.Some? {
        var next := nextSequence.value;
        while next in pending
          invariant nextSequence == old(nextSequence)
          invariant messages + Contiguous(next, pending) == Contiguous(nextSequence.value, old(pending))
          invariant NextAfterDrain(next, pending) == NextAfterDrain(nextSequence.value, old(pending))
          invariant PendingAfterDrain(next, pending) == PendingAfterDrain(nextSequence.value, old(pending))
          decreases |pending|
        {
          messages := messages + [pending[next]];
          pending := pending - {next};
          next := Successor(next);
        }
        nextSequence := Some(next);
      }
      nack := if pending != map[] then nextSequence else None;
      assert Items(messages) == [] + Items(messages);
    }

    method Accept(message: Message) returns (messages: seq<Message>, nack: Option<nat>)
      modifies this
      ensures Result(View(), Items(messages), nack) == Accepted(old(View()), message)
    {
      if nextSequence.None? {
        return [], None;
      }
      var next := nextSequence.value;
      if message.sequence == next {
        nextSequence := Some(Successor(next));
        ghost var resumed := View();
        messages, nack := Drain();
        assert Items([message] + messages) == [Delivered(message)] + Items(messages);
        assert [] + Items(Contiguous(resumed.next.value, resumed.pending)) == Items(messages);
        return [message] + messages, nack;
      }
      var missing := message.sequence > next;
      if missing && message.sequence !in pending && |pending| < REORDER_CAPACITY {
        pending := pending[message.sequence := message];
      }
      messages, nack := Drain();
      if missing && messages == [] {
        nack := nextSequence;
      }
    }

    /**
     * The ordered branch of a received frame: the gap it opens, the messages it releases, and the
     * request it answers with.
     */
    method Handle(body: Body) returns (gap: Option<Item>, messages: seq<Message>, nack: Option<nat>)
      modifies this
      ensures Result(View(), (if gap.Some? then [gap.value] else []) + Items(messages), nack)
              == Handled(old(View()), body)
    {
      gap := None;
      match body {
        case Frontier(next) =>
          if nextSequence.None? {
            nextSequence := Some(next);
          }
          messages, nack := Drain();
        case Floor(available) =>
          if nextSequence.Some? && available > nextSequence.value {
            gap := Some(Gap(nextSequence.value, available));
            nextSequence := Some(available);
            pending := map k | k in pending && available <= k :: pending[k];
          }
          ghost var c := View();
          messages, nack := Drain();
          if gap.Some? {
            assert [] + Items(Contiguous(c.next.value, c.pending)) == Items(messages);
          }
        case Data(message) =>
          messages, nack := Accept(message);
      }
      assert [] + Items(messages) == Items(messages);
    }
  }
}
