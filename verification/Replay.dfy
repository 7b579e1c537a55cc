/**
 * The publisher's bounded replay history and the whole ordered conversation:
 * one publisher, one subscriber and a channel that loses, repeats and reorders.
 */
module Replay {
  import opened Basics
  import opened OrderedDelivery

  const HISTORY_CAPACITY: nat := 256
  const AUXILIARY_CAPACITY: nat := 256

  /** The part of a publisher that answers recovery requests. */
  datatype Archive = Archive(next: nat, history: seq<Message>)

  const NEW := Archive(0, [])

  /** Numbers a payload and keeps the last `HISTORY_CAPACITY` messages; exhausted numbers change nothing. */
  function Recorded(a: Archive, payload: Payload): Archive {
    if a.next >= U64_MAX then a
    else
      var kept := if |a.history| == HISTORY_CAPACITY then a.history[1..] else a.history;
      Archive(a.next + 1, kept + [Message(a.next, payload)])
  }

  function Lowest(a: Archive): nat {
    if a.history == [] then a.next else a.history[0].sequence
  }

  function Since(history: seq<Message>, from: nat): seq<Body> {
    if history == [] then []
    else
      var last := |history| - 1;
      Since(history[..last], from) + (if history[last].sequence >= from then [Data(history[last])] else [])
  }

  /** The answer to a request from `from`; a number never issued is refused. */
  function Answer(a: Archive, from: nat): Option<seq<Body>> {
    if from > a.next then None
    else Some((if from < Lowest(a) then [Floor(Lowest(a))] else []) + Since(a.history, from))
  }

  /** The archive holds exactly the last messages of the log. */
  ghost predicate Archives(a: Archive, log: seq<Payload>) {
    && a.next == |log| <= U64_MAX
    && |a.history| == (if |log| < HISTORY_CAPACITY then |log| else HISTORY_CAPACITY)
    && (forall i | 0 <= i < |a.history| ::
          a.history[i] == Message(|log| - |a.history| + i, log[|log| - |a.history| + i]))
  }

  lemma RecordedArchives(a: Archive, log: seq<Payload>, payload: Payload)
    requires Archives(a, log)
    ensures Archives(Recorded(a, payload), if |log| < U64_MAX then log + [payload] else log)
  {
  }

  /** The number the answer starts delivering from. */
  function Resume(a: Archive, from: nat): nat {
    Max(from, Lowest(a))
  }

  lemma {:induction false} SinceIsSuffix(history: seq<Message>, first: nat, from: nat)
    requires forall i | 0 <= i < |history| :: history[i].sequence == first + i
    ensures |Since(history, from)| ==
      (if from <= first then |history| else if from <= first + |history| then first + |history| - from else 0)
    ensures forall j | 0 <= j < |Since(history, from)| ::
      Since(history, from)[j] == Data(history[|history| - |Since(history, from)| + j])
    decreases |history|
  {
    if history != [] {
      SinceIsSuffix(history[..|history| - 1], first, from);
    }
  }

  /** An answer is an optional floor, then every archived message from there on, in order. */
  lemma AnswerShape(a: Archive, log: seq<Payload>, from: nat)
    requires Archives(a, log) && from <= |log|
    ensures Lowest(a) <= |log|
    ensures var bodies := Answer(a, from).value;
      var lead := if from < Lowest(a) then 1 else 0;
      && |bodies| == lead + |log| - Resume(a, from)
      && (lead == 1 ==> bodies[0] == Floor(Lowest(a)))
      && (forall j | lead <= j < |bodies| ::
            bodies[j] == Data(Message(Resume(a, from) + j - lead, log[Resume(a, from) + j - lead])))
  {
    SinceIsSuffix(a.history, Lowest(a), from);
  }

  // ---- catching up

  /** The cursor after a sequence of bodies, and what they made it emit. */
  function Fed(cursor: Cursor, bodies: seq<Body>): Cursor {
    if bodies == [] then cursor else Handled(Fed(cursor, bodies[..|bodies| - 1]), bodies[|bodies| - 1]).cursor
  }

  function Heard(cursor: Cursor, bodies: seq<Body>): seq<Item> {
    if bodies == [] then []
    else
      var last := |bodies| - 1;
      Heard(cursor, bodies[..last]) + Handled(Fed(cursor, bodies[..last]), bodies[last]).items
  }

  /** A subscriber of this log that has not run ahead of it. */
  ghost predicate Follows(cursor: Cursor, log: seq<Payload>) {
    && CursorOk(cursor) && cursor.next.Some? && cursor.next.value <= |log| <= U64_MAX
    && AuthenticCursor(cursor, log)
  }

  ghost predicate OnlyDelivered(items: seq<Item>) {
    forall item | item in items :: item.Delivered?
  }

  lemma {:induction false} TilesWithinLog(items: seq<Item>, from: nat, to: nat, log: seq<Payload>)
    requires Tiles(items, from, to) && AuthenticItems(items, log) && from <= |log|
    requires forall item | item in items :: item.Gap? ==> item.to <= |log|
    ensures to <= |log|
    decreases |items|
  {
    if items != [] {
      assert items[0] in items;
      TilesWithinLog(items[1..], items[0].End(), to, log);
    }
  }

  /** One authentic body keeps a subscriber following, never backwards, and only a floor ahead of it opens a gap. */
  lemma HandledFollows(cursor: Cursor, body: Body, log: seq<Payload>)
    requires Follows(cursor, log) && AuthenticBody(body, log)
    ensures var r := Handled(cursor, body);
      && Advances(cursor, r) && Follows(r.cursor, log) && AuthenticItems(r.items, log)
      && cursor.next.value <= r.cursor.next.value
      && (body.Data? ==> OnlyDelivered(r.items))
      && (body.Data? && body.message.sequence == cursor.next.value ==> cursor.next.value < r.cursor.next.value)
      && (body.Floor? ==> body.available <= r.cursor.next.value)
  {
    var r := Handled(cursor, body);
    HandledAdvances(cursor, body, log);
    TilesGrow(r.items, cursor.next.value, r.cursor.next.value);
    TilesWithinLog(r.items, cursor.next.value, r.cursor.next.value, log);
    if body.Floor? && body.available > cursor.next.value {
      assert Tiles(r.items[1..], body.available, r.cursor.next.value);
      TilesGrow(r.items[1..], body.available, r.cursor.next.value);
    }
  }

  /** The bodies are an optional floor at `resume`, then the log from there on. */
  ghost predicate Replays(bodies: seq<Body>, lead: nat, resume: nat, log: seq<Payload>) {
    && lead <= 1 && lead <= |bodies| && resume <= |log|
    && |bodies| == lead + |log| - resume
    && (lead == 1 ==> bodies[0] == Floor(resume))
    && (forall j | lead <= j < |bodies| :: bodies[j] == Data(Message(resume + j - lead, log[resume + j - lead])))
  }

  lemma FloorProgress(c: Cursor, resume: nat, log: seq<Payload>, t: Cursor)
    requires Follows(c, log) && resume <= |log| && t == Handled(c, Floor(resume)).cursor
    ensures Follows(t, log) && resume <= t.next.value
  {
    HandledFollows(c, Floor(resume), log);
  }

  lemma DataProgress(c: Cursor, n: nat, log: seq<Payload>, t: Cursor)
    requires Follows(c, log) && n < |log| && n <= c.next.value && t == Handled(c, Data(Message(n, log[n]))).cursor
    ensures Follows(t, log) && n < t.next.value
  {
    HandledFollows(c, Data(Message(n, log[n])), log);
  }

  lemma FedLast(cursor: Cursor, bodies: seq<Body>, k: nat, c: Cursor)
    requires 0 < k <= |bodies| && c == Fed(cursor, bodies[..k - 1])
    ensures Fed(cursor, bodies[..k]) == Handled(c, bodies[k - 1]).cursor
  {
    assert bodies[..k][..k - 1] == bodies[..k - 1];
  }

  /** After `k` bodies the cursor has passed everything they carried. */
  lemma {:induction false} PrefixProgress(bodies: seq<Body>, lead: nat, resume: nat, log: seq<Payload>,
                                          cursor: Cursor, k: nat, t: Cursor)
    requires Replays(bodies, lead, resume, log) && Follows(cursor, log) && (lead == 0 ==> resume <= cursor.next.value)
    requires k <= |bodies| && t == Fed(cursor, bodies[..k])
    ensures Follows(t, log) && (k >= lead ==> resume + k - lead <= t.next.value)
    decreases k
  {
    if k > 0 {
      var c := Fed(cursor, bodies[..k - 1]);
      PrefixProgress(bodies, lead, resume, log, cursor, k - 1, c);
      FedLast(cursor, bodies, k, c);
      if k - 1 < lead {
        FloorProgress(c, resume, log, t);
      } else {
        DataProgress(c, resume + k - 1 - lead, log, t);
      }
    }
  }

  lemma AnswerReplays(a: Archive, log: seq<Payload>, from: nat)
    requires Archives(a, log) && from <= |log|
    ensures Replays(Answer(a, from).value, if from < Lowest(a) then 1 else 0, Resume(a, from), log)
  {
    AnswerShape(a, log, from);
  }

  lemma AnswerProgress(a: Archive, log: seq<Payload>, cursor: Cursor, k: nat)
    requires Archives(a, log) && Follows(cursor, log) && k <= |Answer(a, cursor.next.value).value|
    ensures var c := Fed(cursor, Answer(a, cursor.next.value).value[..k]);
      var lead := if cursor.next.value < Lowest(a) then 1 else 0;
      Follows(c, log) && (k >= lead ==> Resume(a, cursor.next.value) + k - lead <= c.next.value)
  {
    var from := cursor.next.value;
    AnswerReplays(a, log, from);
    var bodies := Answer(a, from).value;
    var lead := if from < Lowest(a) then 1 else 0;
    PrefixProgress(bodies, lead, Resume(a, from), log, cursor, k, Fed(cursor, bodies[..k]));
  }

  /**
   * Recovery completes: a whole answer to the subscriber's own request leaves it
   * at the end of the log with nothing buffered, whatever it had buffered before.
   */
  lemma AnswerCatchesUp(a: Archive, log: seq<Payload>, cursor: Cursor)
    requires Archives(a, log) && Follows(cursor, log)
    ensures Fed(cursor, Answer(a, cursor.next.value).value) == Cursor(Some(|log|), map[])
  {
    var bodies := Answer(a, cursor.next.value).value;
    AnswerProgress(a, log, cursor, |bodies|);
    AnswerShape(a, log, cursor.next.value);
    assert bodies[..|bodies|] == bodies;
    AtEndEmpty(Fed(cursor, bodies), log);
  }

  lemma AtEndEmpty(cursor: Cursor, log: seq<Payload>)
    requires Follows(cursor, log) && cursor.next.value >= |log|
    ensures cursor == Cursor(Some(|log|), map[])
  {
    if k :| k in cursor.pending {
      assert false;
    }
  }

  /** The first capped answer leaves at most the last message of the log undelivered. */
  lemma FirstRound(a: Archive, log: seq<Payload>, cursor: Cursor)
    requires Archives(a, log) && Follows(cursor, log)
    ensures var c := Fed(cursor, Capped(Answer(a, cursor.next.value).value));
      Follows(c, log) && |log| <= c.next.value + 1
  {
    var bodies := Answer(a, cursor.next.value).value;
    AnswerShape(a, log, cursor.next.value);
    AnswerProgress(a, log, cursor, |Capped(bodies)|);
    assert Capped(bodies) == bodies[..|Capped(bodies)|];
  }

  /**
   * At most `AUXILIARY_CAPACITY` bodies of an answer leave at once. A full answer
   * can be one body longer; the subscriber's next request then completes it.
   */
  lemma TwoRoundsCatchUp(a: Archive, log: seq<Payload>, cursor: Cursor)
    requires Archives(a, log) && Follows(cursor, log)
    ensures var c := Fed(cursor, Capped(Answer(a, cursor.next.value).value));
      && Follows(c, log)
      && Fed(c, Capped(Answer(a, c.next.value).value)) == Cursor(Some(|log|), map[])
  {
    FirstRound(a, log, cursor);
    var c := Fed(cursor, Capped(Answer(a, cursor.next.value).value));
    AnswerShape(a, log, c.next.value);
    AnswerCatchesUp(a, log, c);
  }

  function Capped(bodies: seq<Body>): seq<Body> {
    if |bodies| <= AUXILIARY_CAPACITY then bodies else bodies[..AUXILIARY_CAPACITY]
  }

  // ---- what exactly is delivered while catching up

  /** Messages of one log that tile an interval are that interval of the log. */
  lemma {:induction false} DeliveredAreTheLog(items: seq<Item>, from: nat, to: nat, log: seq<Payload>)
    requires Tiles(items, from, to) && OnlyDelivered(items) && AuthenticItems(items, log)
    ensures |items| == to - from
    ensures to > from ==> to <= |log|
    ensures forall i | 0 <= i < |items| :: from + i < |log| && items[i] == Delivered(Message(from + i, log[from + i]))
    decreases |items|
  {
    if items != [] {
      assert items[0] in items;
      DeliveredAreTheLog(items[1..], from + 1, to, log);
      forall i | 0 <= i < |items|
        ensures from + i < |log| && items[i] == Delivered(Message(from + i, log[from + i]))
      {
        if i > 0 { assert items[i] == items[1..][i - 1]; }
      }
    }
  }

  lemma {:induction false} DataEmits(cursor: Cursor, bodies: seq<Body>, log: seq<Payload>)
    requires Follows(cursor, log)
    requires AllData(bodies, log)
    ensures Follows(Fed(cursor, bodies), log)
    ensures Tiles(Heard(cursor, bodies), cursor.next.value, Fed(cursor, bodies).next.value)
    ensures OnlyDelivered(Heard(cursor, bodies)) && AuthenticItems(Heard(cursor, bodies), log)
    decreases |bodies|
  {
    if bodies != [] {
      var last := |bodies| - 1;
      DataEmits(cursor, bodies[..last], log);
      var c := Fed(cursor, bodies[..last]);
      var r := Handled(c, bodies[last]);
      HandledFollows(c, bodies[last], log);
      TilesConcat(Heard(cursor, bodies[..last]), r.items, cursor.next.value, c.next.value, r.cursor.next.value);
    }
  }

  lemma FloorEmits(cursor: Cursor, available: nat, log: seq<Payload>)
    requires Follows(cursor, log) && cursor.next.value < available <= |log|
    ensures var r := Handled(cursor, Floor(available));
      && Follows(r.cursor, log) && available <= r.cursor.next.value
      && |r.items| > 0 && r.items[0] == Gap(cursor.next.value, available)
      && Tiles(r.items[1..], available, r.cursor.next.value)
      && OnlyDelivered(r.items[1..]) && AuthenticItems(r.items[1..], log)
  {
    HandledFollows(cursor, Floor(available), log);
    var r := Handled(cursor, Floor(available));
    assert AuthenticItems(r.items, log);
    var pending := map k | k in cursor.pending && available <= k :: cursor.pending[k];
    assert r.items[1..] == Items(Contiguous(available, pending));
  }

  /** What is emitted from `start` on is the log from there, in order and complete. */
  ghost predicate IsLog(items: seq<Item>, start: nat, log: seq<Payload>) {
    && start <= |log| && |items| == |log| - start
    && (forall i | 0 <= i < |items| :: items[i] == Delivered(Message(start + i, log[start + i])))
  }

  ghost predicate AllData(bodies: seq<Body>, log: seq<Payload>) {
    forall body | body in bodies :: body.Data? && AuthenticBody(body, log)
  }

  /** What a floor followed by messages emits: the gap, then messages that tile on from the floor. */
  ghost predicate GapThenMessages(items: seq<Item>, from: nat, start: nat, to: nat, log: seq<Payload>) {
    && |items| > 0 && items[0] == Gap(from, start)
    && Tiles(items[1..], start, to) && OnlyDelivered(items[1..]) && AuthenticItems(items[1..], log)
  }

  lemma MoreMessages(items: seq<Item>, more: seq<Item>, from: nat, start: nat, mid: nat, to: nat, log: seq<Payload>)
    requires GapThenMessages(items, from, start, mid, log)
    requires Tiles(more, mid, to) && OnlyDelivered(more) && AuthenticItems(more, log)
    ensures GapThenMessages(items + more, from, start, to, log)
  {
    assert (items + more)[1..] == items[1..] + more;
    TilesConcat(items[1..], more, start, mid, to);
  }

  lemma {:induction false} FloorThenData(cursor: Cursor, start: nat, bodies: seq<Body>, log: seq<Payload>)
    requires Follows(cursor, log) && cursor.next.value < start <= |log|
    requires bodies != [] && bodies[0] == Floor(start) && AllData(bodies[1..], log)
    ensures Follows(Fed(cursor, bodies), log)
    ensures GapThenMessages(Heard(cursor, bodies), cursor.next.value, start, Fed(cursor, bodies).next.value, log)
    decreases |bodies|
  {
    var last := |bodies| - 1;
    if last == 0 {
      var r := Handled(cursor, Floor(start));
      assert bodies[..0] == [];
      assert Heard(cursor, bodies) == [] + r.items == r.items;
      FloorEmits(cursor, start, log);
    } else {
      assert bodies[1..][last - 1] == bodies[last];
      assert bodies[..last][1..] == bodies[1..][..last - 1];
      FloorThenData(cursor, start, bodies[..last], log);
      var c := Fed(cursor, bodies[..last]);
      HandledFollows(c, bodies[last], log);
      var r := Handled(c, bodies[last]);
      MoreMessages(Heard(cursor, bodies[..last]), r.items, cursor.next.value, start, c.next.value,
        r.cursor.next.value, log);
    }
  }

  lemma AnswerIsData(a: Archive, log: seq<Payload>, from: nat)
    requires Archives(a, log) && from <= |log|
    ensures var bodies := Answer(a, from).value;
      if from < Lowest(a) then bodies != [] && bodies[0] == Floor(Lowest(a)) && AllData(bodies[1..], log)
      else AllData(bodies, log)
  {
    AnswerShape(a, log, from);
  }

  lemma TilesAreLog(items: seq<Item>, from: nat, log: seq<Payload>)
    requires Tiles(items, from, |log|) && OnlyDelivered(items) && AuthenticItems(items, log)
    ensures IsLog(items, from, log)
  {
    TilesGrow(items, from, |log|);
    DeliveredAreTheLog(items, from, |log|, log);
  }

  lemma DataIsLog(cursor: Cursor, bodies: seq<Body>, log: seq<Payload>)
    requires Follows(cursor, log) && AllData(bodies, log)
    requires Fed(cursor, bodies) == Cursor(Some(|log|), map[])
    ensures IsLog(Heard(cursor, bodies), cursor.next.value, log)
  {
    DataEmits(cursor, bodies, log);
    TilesAreLog(Heard(cursor, bodies), cursor.next.value, log);
  }

  lemma GapIsLog(cursor: Cursor, start: nat, bodies: seq<Body>, log: seq<Payload>)
    requires Follows(cursor, log) && cursor.next.value < start <= |log|
    requires bodies != [] && bodies[0] == Floor(start) && AllData(bodies[1..], log)
    requires Fed(cursor, bodies) == Cursor(Some(|log|), map[])
    ensures var items := Heard(cursor, bodies);
      |items| > 0 && items[0] == Gap(cursor.next.value, start) && IsLog(items[1..], start, log)
  {
    FloorThenData(cursor, start, bodies, log);
    TilesAreLog(Heard(cursor, bodies)[1..], start, log);
  }

  /** One explicit gap for what the archive lost, and then the log itself, nothing else. */
  ghost predicate Recovers(items: seq<Item>, from: nat, lowest: nat, log: seq<Payload>) {
    if from < lowest then |items| > 0 && items[0] == Gap(from, lowest) && IsLog(items[1..], lowest, log)
    else IsLog(items, from, log)
  }

  lemma AnswerDeliversLog(a: Archive, log: seq<Payload>, cursor: Cursor, bodies: seq<Body>)
    requires Archives(a, log) && Follows(cursor, log)
    requires bodies == Answer(a, cursor.next.value).value
    ensures Recovers(Heard(cursor, bodies), cursor.next.value, Lowest(a), log)
  {
    AnswerIsData(a, log, cursor.next.value);
    AnswerCatchesUp(a, log, cursor);
    var lowest := Lowest(a);
    if cursor.next.value < lowest {
      GapIsLog(cursor, lowest, bodies, log);
    } else {
      DataIsLog(cursor, bodies, log);
    }
  }

  // ---- the whole conversation

  /** `wire` holds every body ever put on the channel: any of them may arrive, never or many times, in any order. */
  datatype World = World(archive: Archive, log: seq<Payload>, wire: set<Body>, cursor: Cursor,
                         adopted: Option<nat>, items: seq<Item>)

  const START := World(NEW, [], {}, FRESH, None, [])

  datatype Move = Publish(payload: Payload) | ProbeLive | Request(from: nat) | Deliver(body: Body) | Fence

  function Moved(w: World, move: Move): World {
    match move
    case Publish(payload) =>
      if w.archive.next >= U64_MAX then w
      else w.(archive := Recorded(w.archive, payload), log := w.log + [payload],
              wire := w.wire + {Data(Message(w.archive.next, payload))})
    case ProbeLive => w.(wire := w.wire + {Frontier(w.archive.next)})
    case Request(from) =>
      var answer := Answer(w.archive, from);
      if answer.None? then w else w.(wire := w.wire + set body | body in answer.value)
    case Deliver(body) =>
      if body !in w.wire then w
      else
        var r := Handled(w.cursor, body);
        w.(cursor := r.cursor, items := w.items + r.items,
           adopted := if w.adopted.None? then r.cursor.next else w.adopted)
    case Fence => w.(cursor := Rebound(w.cursor))
  }

  function Played(moves: seq<Move>): World {
    if moves == [] then START else Moved(Played(moves[..|moves| - 1]), moves[|moves| - 1])
  }

  /**
   * The subscriber has seen exactly the log from where it joined to its cursor:
   * every number once, in order, with the published payload or inside a gap.
   */
  ghost predicate Faithful(w: World) {
    if w.adopted.None? then w.cursor == FRESH && w.items == []
    else
      && Follows(w.cursor, w.log)
      && w.adopted.value <= w.cursor.next.value
      && Tiles(w.items, w.adopted.value, w.cursor.next.value)
      && AuthenticItems(w.items, w.log)
  }

  ghost predicate WorldOk(w: World) {
    && Archives(w.archive, w.log)
    && (forall body | body in w.wire :: AuthenticBody(body, w.log))
    && Faithful(w)
  }

  lemma PublishOk(w: World, payload: Payload)
    requires WorldOk(w)
    ensures WorldOk(Moved(w, Publish(payload)))
  {
    RecordedArchives(w.archive, w.log, payload);
    var t := Moved(w, Publish(payload));
    forall body | body in t.wire ensures AuthenticBody(body, t.log) {
      if body in w.wire { assert AuthenticBody(body, w.log); }
    }
  }

  lemma RequestOk(w: World, from: nat)
    requires WorldOk(w)
    ensures WorldOk(Moved(w, Request(from)))
  {
    if from <= w.archive.next {
      var bodies := Answer(w.archive, from).value;
      AnswerShape(w.archive, w.log, from);
      forall body | body in bodies ensures AuthenticBody(body, w.log) {
        var j :| 0 <= j < |bodies| && bodies[j] == body;
      }
    }
  }

  lemma DeliverOk(w: World, body: Body)
    requires WorldOk(w) && body in w.wire
    ensures WorldOk(Moved(w, Deliver(body)))
  {
    assert AuthenticBody(body, w.log);
    var t := Moved(w, Deliver(body));
    if w.adopted.None? {
      NothingBeforeFrontier(Receive(body));
      assert t.items == [];
    } else {
      HandledFollows(w.cursor, body, w.log);
      var r := Handled(w.cursor, body);
      TilesConcat(w.items, r.items, w.adopted.value, w.cursor.next.value, r.cursor.next.value);
    }
  }

  /** Over every run of publishing, probing, requesting, loss, repetition, reordering and transport change. */
  lemma {:induction false} ConversationFaithful(moves: seq<Move>)
    ensures WorldOk(Played(moves))
    decreases |moves|
  {
    if moves != [] {
      ConversationFaithful(moves[..|moves| - 1]);
      var w := Played(moves[..|moves| - 1]);
      match moves[|moves| - 1]
      case Publish(payload) => PublishOk(w, payload);
      case Request(from) => RequestOk(w, from);
      case Deliver(body) => if body in w.wire { DeliverOk(w, body); }
      case ProbeLive =>
      case Fence =>
    }
  }

  lemma NumberAccountedFor(w: World, k: nat) returns (i: nat)
    requires WorldOk(w) && w.adopted.Some? && w.adopted.value <= k < w.cursor.next.value
    ensures i < |w.items| && Covers(w.items[i], k) && k < |w.log|
    ensures w.items[i].Delivered? ==> w.items[i].message == Message(k, w.log[k])
    ensures forall j | 0 <= j < |w.items| && Covers(w.items[j], k) :: j == i
  {
    CoveredExactlyOnce(w.items, w.adopted.value, w.cursor.next.value, k);
    i :| 0 <= i < |w.items| && Covers(w.items[i], k);
    assert w.items[i] in w.items;
  }

  /** Read as numbers: each published number since joining is delivered with its payload, or lies in one gap, once. */
  lemma EveryNumberAccountedFor(moves: seq<Move>, k: nat)
    ensures var w := Played(moves);
      w.adopted.Some? ==> w.cursor.next.Some? && (w.adopted.value <= k < w.cursor.next.value ==>
        && k < |w.log|
        && exists i | 0 <= i < |w.items| ::
             && Covers(w.items[i], k)
             && (w.items[i].Delivered? ==> w.items[i].message == Message(k, w.log[k]))
             && (forall j | 0 <= j < |w.items| && Covers(w.items[j], k) :: j == i))
  {
    ConversationFaithful(moves);
    var w := Played(moves);
    if w.adopted.Some? && w.adopted.value <= k < w.cursor.next.value {
      var i := NumberAccountedFor(w, k);
    }
  }
}
