/** The bounded queue between the topics and an application that reads at its own pace. */
module DataReceivers {
  import opened Basics
  import opened OrderedDelivery

  const CAPACITY: nat := 256

  datatype Identity = Identity(participant: string, track: string)

  datatype Arrival = Arrival(identity: Identity, item: Item)

  datatype Failure = Overflow | ChannelFailed(reason: string)

  datatype Receiver = Receiver(mode: Mode, participant: Option<string>, queue: seq<Arrival>, failure: Option<Failure>)

  predicate Accepts(r: Receiver, identity: Identity) {
    r.participant.None? || r.participant.value == identity.participant
  }

  /** The end of an arrival, which the largest message number does not have. */
  predicate Bounded(a: Arrival) {
    a.item.Delivered? ==> a.item.message.sequence < U64_MAX
  }

  predicate Seen(queue: seq<Arrival>, identity: Identity) {
    exists i | 0 <= i < |queue| :: queue[i].identity == identity
  }

  predicate AllDistinct(queue: seq<Arrival>) {
    forall i, j | 0 <= i < j < |queue| :: queue[i].identity != queue[j].identity
  }

  function Without(queue: seq<Arrival>, identity: Identity): seq<Arrival> {
    if queue == [] then []
    else
      var last := |queue| - 1;
      Without(queue[..last], identity) + if queue[last].identity == identity then [] else [queue[last]]
  }

  /** The first index whose track is already in the queue before it. */
  function FirstRepeat(queue: seq<Arrival>, from: nat): (second: nat)
    requires from <= |queue|
    ensures from <= second <= |queue|
    ensures second < |queue| ==> Seen(queue[..second], queue[second].identity)
    decreases |queue| - from
  {
    if from == |queue| || Seen(queue[..from], queue[from].identity) then from else FirstRepeat(queue, from + 1)
  }

  function IndexOf(queue: seq<Arrival>, identity: Identity): (i: nat)
    requires Seen(queue, identity)
    ensures i < |queue| && queue[i].identity == identity && !Seen(queue[..i], identity)
  {
    if queue[0].identity == identity then 0
    else
      assert Seen(queue[1..], identity) by {
        var j :| 0 <= j < |queue| && queue[j].identity == identity;
        assert queue[1..][j - 1].identity == identity;
      }
      var i := 1 + IndexOf(queue[1..], identity);
      assert forall j | 0 < j < i :: queue[j] == queue[1..][j - 1] == queue[1..][..i - 1][j - 1];
      i
  }

  function Merged(earlier: Arrival, later: Arrival): Arrival {
    Arrival(earlier.identity, Gap(earlier.item.Start(), Max(earlier.item.End(), later.item.End())))
  }

  function Joined(queue: seq<Arrival>, first: nat, second: nat): seq<Arrival>
    requires first < second < |queue|
  {
    queue[..first] + [Merged(queue[first], queue[second])] + queue[first + 1..second] + queue[second + 1..]
  }

  /** Folds the first two arrivals of one track into a gap; nothing if every track is different. */
  function Compacted(queue: seq<Arrival>): Option<seq<Arrival>> {
    var second := FirstRepeat(queue, 0);
    if second == |queue| then None
    else
      var first := IndexOf(queue[..second], queue[second].identity);
      if !Bounded(queue[first]) || !Bounded(queue[second]) then None
      else Some(Joined(queue, first, second))
  }

  function Failed(r: Receiver, failure: Failure): Receiver {
    r.(queue := [], failure := Some(failure))
  }

  function Room(r: Receiver, a: Arrival): seq<Arrival> {
    match r.mode
    case Latest => Without(r.queue, a.identity)
    case Lossy => if |r.queue| == CAPACITY then r.queue[1..] else r.queue
    case Ordered => r.queue
  }

  function Pushed(r: Receiver, a: Arrival): Receiver {
    if r.failure.Some? || !Accepts(r, a.identity) then r
    else
      var queue := Room(r, a) + [a];
      if |queue| <= CAPACITY then r.(queue := queue)
      else if r.mode == Ordered && Compacted(queue).Some? then r.(queue := Compacted(queue).value)
      else Failed(r, Overflow)
  }

  // ---- one track's view of the queue

  function Of(queue: seq<Arrival>, identity: Identity): seq<Item> {
    if queue == [] then []
    else
      var last := |queue| - 1;
      Of(queue[..last], identity) + if queue[last].identity == identity then [queue[last].item] else []
  }

  lemma {:induction false} OfConcat(a: seq<Arrival>, b: seq<Arrival>, identity: Identity)
    ensures Of(a + b, identity) == Of(a, identity) + Of(b, identity)
    decreases |b|
  {
    if b == [] {
      assert a + b == a;
    } else {
      var last := |b| - 1;
      OfConcat(a, b[..last], identity);
      assert (a + b)[..|a + b| - 1] == a + b[..last];
    }
  }

  lemma {:induction false} OfUnseen(queue: seq<Arrival>, identity: Identity)
    requires !Seen(queue, identity)
    ensures Of(queue, identity) == []
    decreases |queue|
  {
    if queue != [] {
      OfUnseen(queue[..|queue| - 1], identity);
    }
  }

  lemma OfSingle(a: Arrival, identity: Identity)
    ensures Of([a], identity) == if a.identity == identity then [a.item] else []
  {
    assert [a][..0] == [];
  }

  lemma {:induction false} RepeatFound(queue: seq<Arrival>, from: nat)
    requires from <= |queue| && AllDistinct(queue[..from])
    ensures var second := FirstRepeat(queue, from);
      && from <= second <= |queue| && AllDistinct(queue[..second])
      && (second < |queue| ==> Seen(queue[..second], queue[second].identity))
      && (second == |queue| <==> AllDistinct(queue))
    decreases |queue| - from
  {
    if from < |queue| && !Seen(queue[..from], queue[from].identity) {
      RepeatFound(queue, from + 1);
    } else if from < |queue| {
      var i :| 0 <= i < from && queue[..from][i].identity == queue[from].identity;
      assert queue[i].identity == queue[from].identity;
    } else {
      assert queue[..from] == queue;
    }
  }

  lemma SliceUnseen(queue: seq<Arrival>, low: nat, high: nat, identity: Identity)
    requires low <= high <= |queue| && forall i | low <= i < high :: queue[i].identity != identity
    ensures !Seen(queue[low..high], identity)
  {
  }

  /** Before the repeat, only the first of the two arrivals belongs to their track. */
  lemma OnlyFirst(queue: seq<Arrival>, first: nat, second: nat)
    requires first < second < |queue| && AllDistinct(queue[..second])
    ensures !Seen(queue[..first], queue[first].identity) && !Seen(queue[first + 1..second], queue[first].identity)
  {
    var identity := queue[first].identity;
    forall i | 0 <= i < second && i != first ensures queue[i].identity != identity {
      assert queue[..second][i].identity != queue[..second][first].identity;
    }
    SliceUnseen(queue, 0, first, identity);
    SliceUnseen(queue, first + 1, second, identity);
    assert queue[0..first] == queue[..first];
  }

  lemma OfParts(a: seq<Arrival>, x: Arrival, b: seq<Arrival>, c: seq<Arrival>, identity: Identity)
    ensures Of(a + [x] + b + c, identity)
      == Of(a, identity) + (if x.identity == identity then [x.item] else []) + Of(b, identity) + Of(c, identity)
  {
    OfSingle(x, identity);
    OfConcat(a, [x], identity);
    OfConcat(a + [x], b, identity);
    OfConcat(a + [x] + b, c, identity);
  }

  predicate FoldsFirstTwo(items: seq<Item>, after: seq<Item>) {
    |items| >= 2 && after == [Gap(items[0].Start(), Max(items[0].End(), items[1].End()))] + items[2..]
  }

  lemma OfFirst(a: seq<Arrival>, x: Arrival, b: seq<Arrival>, c: seq<Arrival>)
    requires !Seen(a, x.identity) && !Seen(b, x.identity)
    ensures Of(a + [x] + b + c, x.identity) == [x.item] + Of(c, x.identity)
  {
    OfParts(a, x, b, c, x.identity);
    OfUnseen(a, x.identity);
    OfUnseen(b, x.identity);
  }

  lemma OfWithout(a: seq<Arrival>, x: Arrival, b: seq<Arrival>, c: seq<Arrival>, identity: Identity)
    requires x.identity != identity
    ensures Of(a + [x] + b + c, identity) == Of(a, identity) + Of(b, identity) + Of(c, identity)
  {
    OfParts(a, x, b, c, identity);
  }

  lemma OfHead(y: Arrival, c: seq<Arrival>, identity: Identity)
    ensures Of([y] + c, identity) == (if y.identity == identity then [y.item] else []) + Of(c, identity)
  {
    OfSingle(y, identity);
    OfConcat([y], c, identity);
  }

  lemma OfAround(a: seq<Arrival>, x: Arrival, b: seq<Arrival>, y: Arrival, c: seq<Arrival>, identity: Identity)
    requires x.identity == y.identity && !Seen(a, x.identity) && !Seen(b, x.identity)
    ensures var items := Of(a + [x] + b + ([y] + c), identity);
      var after := Of(a + [Merged(x, y)] + b + c, identity);
      if identity == x.identity then FoldsFirstTwo(items, after) else after == items
  {
    OfHead(y, c, identity);
    if identity == x.identity {
      OfFirst(a, x, b, [y] + c);
      OfFirst(a, Merged(x, y), b, c);
    } else {
      OfWithout(a, x, b, [y] + c, identity);
      OfWithout(a, Merged(x, y), b, c, identity);
    }
  }

  lemma JoinedOf(queue: seq<Arrival>, first: nat, second: nat, identity: Identity)
    requires first < second < |queue| && AllDistinct(queue[..second])
    requires queue[first].identity == queue[second].identity
    ensures var items, after := Of(queue, identity), Of(Joined(queue, first, second), identity);
      if identity == queue[second].identity then FoldsFirstTwo(items, after) else after == items
  {
    OnlyFirst(queue, first, second);
    var a, x, b, y, c := queue[..first], queue[first], queue[first + 1..second], queue[second], queue[second + 1..];
    OfAround(a, x, b, y, c, identity);
    assert queue == a + [x] + b + ([y] + c);
  }

  /** What compaction does to each track: the first two items of one track become one gap, the rest is untouched. */
  lemma CompactedOf(queue: seq<Arrival>, identity: Identity)
    requires Compacted(queue).Some?
    ensures FirstRepeat(queue, 0) < |queue| && |Compacted(queue).value| == |queue| - 1
    ensures var items := Of(queue, identity);
      var after := Of(Compacted(queue).value, identity);
      if identity == queue[FirstRepeat(queue, 0)].identity then FoldsFirstTwo(items, after) else after == items
  {
    RepeatFound(queue, 0);
    var second := FirstRepeat(queue, 0);
    JoinedOf(queue, IndexOf(queue[..second], queue[second].identity), second, identity);
  }

  lemma {:induction false} TilesSplit(first: seq<Item>, rest: seq<Item>, from: nat, to: nat) returns (mid: nat)
    requires Tiles(first + rest, from, to)
    ensures Tiles(first, from, mid) && Tiles(rest, mid, to)
    decreases |first|
  {
    if first == [] {
      assert first + rest == rest;
      mid := from;
    } else {
      assert (first + rest)[1..] == first[1..] + rest;
      mid := TilesSplit(first[1..], rest, first[0].End(), to);
    }
  }

  lemma FoldedTiles(items: seq<Item>, after: seq<Item>, from: nat, to: nat)
    requires FoldsFirstTwo(items, after) && Tiles(items, from, to)
    ensures Tiles(after, from, to)
  {
    assert items[1..][1..] == items[2..] == after[1..];
  }

  /** Compaction never loses a number: whatever a track tiled, it still tiles. */
  lemma CompactedTiles(read: seq<Arrival>, queue: seq<Arrival>, identity: Identity, from: nat, to: nat)
    requires Compacted(queue).Some? && Tiles(Of(read + queue, identity), from, to)
    ensures Tiles(Of(read + Compacted(queue).value, identity), from, to)
  {
    OfConcat(read, queue, identity);
    OfConcat(read, Compacted(queue).value, identity);
    var mid := TilesSplit(Of(read, identity), Of(queue, identity), from, to);
    CompactedOf(queue, identity);
    if Of(Compacted(queue).value, identity) != Of(queue, identity) {
      FoldedTiles(Of(queue, identity), Of(Compacted(queue).value, identity), mid, to);
    }
    TilesConcat(Of(read, identity), Of(Compacted(queue).value, identity), from, mid, to);
  }

  lemma PushedMembers(r: Receiver, a: Arrival)
    ensures forall b | b in Pushed(r, a).queue :: b in r.queue || b == a || b.item.Gap?
  {
    var queue := Room(r, a) + [a];
    if r.mode == Latest { WithoutMembers(r.queue, a.identity); }
    if Compacted(queue).Some? {
      var second := FirstRepeat(queue, 0);
      var first := IndexOf(queue[..second], queue[second].identity);
      forall b | b in Joined(queue, first, second) ensures b in queue || b.item.Gap? {
      }
    }
  }

  // ---- compaction before and after one more arrival

  /** No stretch of different tracks reaches past an arrival whose track was seen before it. */
  lemma SeenEndsDistinct(queue: seq<Arrival>, i: nat, n: nat)
    requires i < |queue| && n <= |queue| && Seen(queue[..i], queue[i].identity) && AllDistinct(queue[..n])
    ensures n <= i
  {
    forall j, k | 0 <= j < k < n ensures queue[j].identity != queue[k].identity {
      assert queue[..n][j].identity != queue[..n][k].identity;
    }
    var k :| 0 <= k < i && queue[..i][k].identity == queue[i].identity;
    assert queue[k].identity == queue[i].identity;
  }

  lemma RepeatUnique(queue: seq<Arrival>, i: nat, j: nat)
    requires i < |queue| && j < |queue|
    requires AllDistinct(queue[..i]) && Seen(queue[..i], queue[i].identity)
    requires AllDistinct(queue[..j]) && Seen(queue[..j], queue[j].identity)
    ensures i == j
  {
    SeenEndsDistinct(queue, i, j);
    SeenEndsDistinct(queue, j, i);
  }

  lemma DistinctSlice(queue: seq<Arrival>, a: Arrival, n: nat)
    requires n <= |queue|
    ensures (queue + [a])[..n] == queue[..n]
  {
  }

  /** Compacting a queue that repeats a track already leaves the newest arrival alone. */
  lemma CompactedAppend(queue: seq<Arrival>, a: Arrival)
    requires !AllDistinct(queue) && Compacted(queue + [a]).Some?
    ensures Compacted(queue).Some? && Compacted(queue + [a]).value == Compacted(queue).value + [a]
  {
    var more := queue + [a];
    RepeatFound(queue, 0);
    RepeatFound(more, 0);
    var second := FirstRepeat(queue, 0);
    DistinctSlice(queue, a, second);
    assert more[second] == queue[second];
    if FirstRepeat(more, 0) < |more| {
      RepeatUnique(more, second, FirstRepeat(more, 0));
    }
    assert FirstRepeat(more, 0) == second;
    var first := IndexOf(queue[..second], queue[second].identity);
    assert more[first] == queue[first] && more[first + 1..second] == queue[first + 1..second];
    assert more[second + 1..] == queue[second + 1..] + [a] && more[..first] == queue[..first];
    assert Joined(more, first, second) == Joined(queue, first, second) + [a];
  }

  lemma {:induction false} OfDistinct(queue: seq<Arrival>, identity: Identity)
    requires AllDistinct(queue) && Seen(queue, identity)
    ensures |Of(queue, identity)| == 1
    decreases |queue|
  {
    var rest, last := queue[..|queue| - 1], queue[|queue| - 1];
    assert queue == rest + [last];
    SeenAppend(rest, last, identity);
    if last.identity == identity {
      forall i | 0 <= i < |rest| ensures rest[i].identity != identity {
        assert queue[i].identity != queue[|queue| - 1].identity;
      }
      OfUnseen(rest, identity);
    } else {
      OfDistinct(rest, identity);
    }
  }

  /** A full queue of different tracks folds the newest arrival into the one item its track has. */
  lemma CompactedJoins(queue: seq<Arrival>, a: Arrival, i: Item)
    requires AllDistinct(queue) && Of(queue, a.identity) == [i] && Compacted(queue + [a]).Some?
    ensures Of(Compacted(queue + [a]).value, a.identity) == [Gap(i.Start(), Max(i.End(), a.item.End()))]
  {
    var more := queue + [a];
    RepeatFound(more, 0);
    var second := FirstRepeat(more, 0);
    assert more[..|queue|] == queue;
    SeenEndsDistinct(more, second, |queue|);
    CompactedOf(more, a.identity);
    OfConcat(queue, [a], a.identity);
    OfSingle(a, a.identity);
    assert Of(more, a.identity) == [i, a.item];
  }

  // ---- when a receiver gives up

  ghost predicate ReceiverOk(r: Receiver) {
    && |r.queue| <= CAPACITY
    && (r.failure.Some? ==> r.queue == [])
    && (forall a | a in r.queue :: Bounded(a) && Accepts(r, a.identity))
    && (r.mode == Latest ==> AllDistinct(r.queue))
  }

  lemma {:induction false} WithoutMembers(queue: seq<Arrival>, identity: Identity)
    ensures |Without(queue, identity)| <= |queue|
    ensures forall a | a in Without(queue, identity) :: a in queue && a.identity != identity
    decreases |queue|
  {
    if queue != [] {
      WithoutMembers(queue[..|queue| - 1], identity);
    }
  }

  lemma {:induction false} WithoutDistinct(queue: seq<Arrival>, identity: Identity)
    requires AllDistinct(queue)
    ensures AllDistinct(Without(queue, identity))
    decreases |queue|
  {
    if queue != [] {
      var rest, last := queue[..|queue| - 1], queue[|queue| - 1];
      WithoutDistinct(rest, identity);
      WithoutMembers(rest, identity);
      forall a | a in Without(rest, identity) ensures a.identity != last.identity {
        var i :| 0 <= i < |rest| && rest[i] == a;
        assert queue[i] == a;
      }
    }
  }

  lemma SeenAppend(queue: seq<Arrival>, last: Arrival, identity: Identity)
    ensures Seen(queue + [last], identity) <==> Seen(queue, identity) || last.identity == identity
  {
    if i :| 0 <= i < |queue| && queue[i].identity == identity { assert (queue + [last])[i] == queue[i]; }
    assert (queue + [last])[|queue|] == last;
  }

  lemma {:induction false} WithoutShrinks(queue: seq<Arrival>, identity: Identity)
    ensures if Seen(queue, identity) then |Without(queue, identity)| < |queue| else Without(queue, identity) == queue
    decreases |queue|
  {
    if queue != [] {
      var rest, last := queue[..|queue| - 1], queue[|queue| - 1];
      WithoutShrinks(rest, identity);
      WithoutMembers(rest, identity);
      SeenAppend(rest, last, identity);
      assert queue == rest + [last];
    }
  }

  ghost predicate AllFit(r: Receiver, queue: seq<Arrival>) {
    forall a | a in queue :: Bounded(a) && Accepts(r, a.identity)
  }

  lemma RoomOk(r: Receiver, a: Arrival)
    requires ReceiverOk(r) && Bounded(a) && Accepts(r, a.identity)
    ensures |Room(r, a)| <= |r.queue| && AllFit(r, Room(r, a) + [a])
    ensures r.mode == Latest ==> AllDistinct(Room(r, a) + [a])
  {
    if r.mode == Latest {
      WithoutMembers(r.queue, a.identity);
      WithoutDistinct(r.queue, a.identity);
    }
  }

  lemma CompactedFits(r: Receiver, queue: seq<Arrival>)
    requires Compacted(queue).Some? && AllFit(r, queue)
    ensures |Compacted(queue).value| == |queue| - 1 && AllFit(r, Compacted(queue).value)
  {
    var second := FirstRepeat(queue, 0);
    var first := IndexOf(queue[..second], queue[second].identity);
    assert queue[first] in queue;
    forall a | a in Joined(queue, first, second) ensures a in queue || a == Merged(queue[first], queue[second]) {
    }
  }

  lemma PushedOk(r: Receiver, a: Arrival)
    requires ReceiverOk(r) && Bounded(a)
    ensures ReceiverOk(Pushed(r, a))
  {
    if r.failure.None? && Accepts(r, a.identity) {
      RoomOk(r, a);
      var queue := Room(r, a) + [a];
      if r.mode == Ordered && Compacted(queue).Some? {
        CompactedFits(r, queue);
      }
    }
  }

  /**
   * A working receiver overflows exactly when its queue is full and, together with the
   * new arrival, holds as many different tracks as arrivals; a lossy one never does.
   */
  lemma OverflowExactly(r: Receiver, a: Arrival)
    requires ReceiverOk(r) && Bounded(a) && r.failure.None? && Accepts(r, a.identity)
    ensures Pushed(r, a).failure == Some(Overflow)
      <==> r.mode != Lossy && |r.queue| == CAPACITY && AllDistinct(r.queue + [a])
    ensures Pushed(r, a).failure.None? || Pushed(r, a).failure == Some(Overflow)
  {
    match r.mode
    case Lossy =>
    case Latest =>
      WithoutShrinks(r.queue, a.identity);
      if Seen(r.queue, a.identity) {
        var i :| 0 <= i < |r.queue| && r.queue[i].identity == a.identity;
        assert (r.queue + [a])[i].identity == (r.queue + [a])[|r.queue|].identity;
      }
    case Ordered =>
      var queue := r.queue + [a];
      RepeatFound(queue, 0);
      assert forall b | b in queue :: Bounded(b);
  }

  // ---- the object

  class DataReceiver {
    const mode: Mode
    const participant: Option<string>
    var queue: seq<Arrival>
    var failure: Option<Failure>

    ghost function View(): Receiver
      reads this
    {
      Receiver(mode, participant, queue, failure)
    }

    constructor (mode: Mode, participant: Option<string>)
      ensures View() == Receiver(mode, participant, [], None)
    {
      this.mode, this.participant := mode, participant;
      queue, failure := [], None;
    }

    method Retain(identity: Identity)
      modifies `queue
      ensures queue == Without(old(queue), identity)
    {
      var kept := [];
      for i := 0 to |queue|
        invariant kept == Without(queue[..i], identity)
        invariant queue == old(queue)
      {
        assert queue[..i + 1][..i] == queue[..i];
        if queue[i].identity != identity {
          kept := kept + [queue[i]];
        }
      }
      assert queue[..|queue|] == queue;
      queue := kept;
    }

    /** Folds two arrivals of one track into a gap, remembering where each track was first met. */
    method Compact() returns (done: bool)
      modifies `queue
      ensures done == Compacted(old(queue)).Some?
      ensures queue == if done then Compacted(old(queue)).value else old(queue)
    {
      var firstByTrack: map<Identity, nat> := map[];
      for second := 0 to |queue|
        invariant queue == old(queue) && FirstRepeat(queue, 0) == FirstRepeat(queue, second)
        invariant forall k | k in firstByTrack :: firstByTrack[k] < second && queue[firstByTrack[k]].identity == k
        invariant forall i | 0 <= i < second :: queue[i].identity in firstByTrack
        invariant AllDistinct(queue[..second])
      {
        var identity := queue[second].identity;
        if identity in firstByTrack {
          var first := firstByTrack[identity];
          assert queue[..second][first].identity == identity;
          OnlyIndex(queue[..second], identity, first);
          if !Bounded(queue[first]) || !Bounded(queue[second]) {
            return false;
          }
          queue := Joined(queue, first, second);
          return true;
        }
        assert !Seen(queue[..second], identity);
        firstByTrack := firstByTrack[identity := second];
      }
      return false;
    }

    method Fail(reason: Failure)
      modifies `queue, `failure
      ensures View() == Failed(old(View()), reason)
    {
      queue, failure := [], Some(reason);
    }

    method Push(a: Arrival)
      modifies `queue, `failure
      ensures View() == Pushed(old(View()), a)
    {
      if failure.Some? || (participant.Some? && participant.value != a.identity.participant) {
        return;
      }
      if mode == Latest {
        Retain(a.identity);
      } else if mode == Lossy && |queue| == CAPACITY {
        queue := queue[1..];
      }
      queue := queue + [a];
      if |queue| <= CAPACITY {
        return;
      }
      var compacted := false;
      if mode == Ordered {
        compacted := Compact();
      }
      if !compacted {
        Fail(Overflow);
      }
    }

    method Read() returns (a: Option<Arrival>, error: Option<Failure>)
      modifies `queue
      ensures error == failure
      ensures if error.Some? || old(queue) == [] then a.None? && queue == old(queue)
              else a.Some? && old(queue) == [a.value] + queue
    {
      if failure.Some? {
        return None, failure;
      }
      if queue == [] {
        return None, None;
      }
      a, error := Some(queue[0]), None;
      queue := queue[1..];
    }
  }

  lemma OnlyIndex(queue: seq<Arrival>, identity: Identity, i: nat)
    requires AllDistinct(queue) && i < |queue| && queue[i].identity == identity
    ensures Seen(queue, identity) && IndexOf(queue, identity) == i
  {
  }
}
