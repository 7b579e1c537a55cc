/** Many views of remote video, one demand and one stable slot per selected track. */
module VideoDemands {
  import opened Basics
  import ResourceOrder

  const U32_MAX: nat := 0xFFFF_FFFF

  datatype Selector = Selector(participant: string, title: string)

  datatype Delay = Adaptive | Fixed(min: nat, max: nat)

  /** Height 0 asks for the full picture. */
  datatype Demand = Demand(height: nat, minHeight: nat, minFps: nat, priority: nat, delay: Delay)

  datatype View = View(selector: Selector, visible: bool, demand: Demand)

  const UNSEEN := Demand(0, 0, 0, 0, Adaptive)

  function Min(a: nat, b: nat): nat { if a < b then a else b }

  predicate WellFormed(d: Demand) {
    d.delay.Fixed? ==> d.delay.min <= d.delay.max
  }

  function JoinDelay(a: Delay, b: Delay): Delay {
    if a.Fixed? && b.Fixed? then Fixed(Min(a.min, b.min), Max(a.max, b.max))
    else if a.Adaptive? then b
    else a
  }

  /** Combines two demands on one track. */
  function Join(a: Demand, b: Demand): Demand {
    Demand(if a.height == 0 || b.height == 0 then 0 else Max(a.height, b.height),
           Max(a.minHeight, b.minHeight), Max(a.minFps, b.minFps), Max(a.priority, b.priority),
           JoinDelay(a.delay, b.delay))
  }

  /** `b` satisfies everything `a` asks for. */
  predicate Covers(b: Demand, a: Demand) {
    && (b.height == 0 || (a.height != 0 && a.height <= b.height))
    && a.minHeight <= b.minHeight && a.minFps <= b.minFps && a.priority <= b.priority
    && (a.delay.Fixed? ==> b.delay.Fixed? && b.delay.min <= a.delay.min && a.delay.max <= b.delay.max)
  }

  /** The join is the least demand that covers both: hence associative, commutative and idempotent. */
  lemma JoinIsLeast(a: Demand, b: Demand, u: Demand)
    ensures Covers(Join(a, b), a) && Covers(Join(a, b), b)
    ensures Covers(u, a) && Covers(u, b) <==> Covers(u, Join(a, b))
    ensures WellFormed(a) && WellFormed(b) ==> WellFormed(Join(a, b))
  {
  }

  lemma JoinLaws(a: Demand, b: Demand, c: Demand)
    ensures Join(a, a) == a
    ensures Join(a, b) == Join(b, a)
    ensures Join(Join(a, b), c) == Join(a, Join(b, c))
  {
  }

  // ---- the aggregate of the views of one selector

  predicate Shows(views: map<nat, View>, owner: nat, selector: Selector) {
    owner in views && views[owner].visible && views[owner].selector == selector
  }

  /** A demand covers every visible view of the selector among `owners`. */
  ghost predicate CoversAll(u: Demand, views: map<nat, View>, owners: set<nat>, selector: Selector) {
    forall owner | owner in owners && Shows(views, owner, selector) :: Covers(u, views[owner].demand)
  }

  /** The least demand covering every visible view of the selector among `owners`. */
  ghost predicate Aggregates(d: Demand, views: map<nat, View>, owners: set<nat>, selector: Selector) {
    forall u {:trigger Covers(u, d)} {:trigger CoversAll(u, views, owners, selector)} ::
      Covers(u, d) <==> CoversAll(u, views, owners, selector)
  }

  /** However the views are visited, there is one aggregate. */
  lemma AggregateUnique(d: Demand, e: Demand, views: map<nat, View>, owners: set<nat>, selector: Selector)
    requires Aggregates(d, views, owners, selector) && Aggregates(e, views, owners, selector)
    ensures d == e
  {
    assert Covers(d, d) && Covers(e, e);
    assert Covers(d, e) && Covers(e, d);
  }

  lemma AggregateFirst(views: map<nat, View>, owners: set<nat>, owner: nat, selector: Selector)
    requires Shows(views, owner, selector)
    requires forall o | o in owners :: !Shows(views, o, selector)
    ensures Aggregates(views[owner].demand, views, owners + {owner}, selector)
  {
    assert owner in owners + {owner};
  }

  lemma AggregateNext(d: Demand, views: map<nat, View>, owners: set<nat>, owner: nat, selector: Selector)
    requires Shows(views, owner, selector) && Aggregates(d, views, owners, selector)
    ensures Aggregates(Join(d, views[owner].demand), views, owners + {owner}, selector)
  {
    forall u ensures Covers(u, Join(d, views[owner].demand)) <==> CoversAll(u, views, owners + {owner}, selector) {
      JoinIsLeast(d, views[owner].demand, u);
      assert Covers(u, d) <==> CoversAll(u, views, owners, selector);
      assert owner in owners + {owner};
      assert forall o | o in owners :: o in owners + {owner};
    }
  }

  lemma AggregateOther(d: Demand, views: map<nat, View>, owners: set<nat>, owner: nat, selector: Selector)
    requires !Shows(views, owner, selector) && Aggregates(d, views, owners, selector)
    ensures Aggregates(d, views, owners + {owner}, selector)
  {
    forall u ensures Covers(u, d) <==> CoversAll(u, views, owners + {owner}, selector) {
      assert Covers(u, d) <==> CoversAll(u, views, owners, selector);
      assert forall o | o in owners :: o in owners + {owner};
    }
  }

  // ---- the order of selectors

  function TextKey(text: string): seq<int> {
    ResourceOrder.Codes(text)
  }

  /** The order of a map keyed by selectors: participant first, then title, texts by code point. */
  predicate Precedes(a: Selector, b: Selector) {
    || ResourceOrder.KeyLess(TextKey(a.participant), TextKey(b.participant))
    || (a.participant == b.participant && ResourceOrder.KeyLess(TextKey(a.title), TextKey(b.title)))
  }

  lemma TextTotal(a: string, b: string)
    ensures ResourceOrder.KeyLess(TextKey(a), TextKey(b)) || ResourceOrder.KeyLess(TextKey(b), TextKey(a)) || a == b
    ensures !(ResourceOrder.KeyLess(TextKey(a), TextKey(b)) && ResourceOrder.KeyLess(TextKey(b), TextKey(a)))
    ensures !ResourceOrder.KeyLess(TextKey(a), TextKey(a))
  {
    ResourceOrder.KeyLessTotal(TextKey(a), TextKey(b));
    ResourceOrder.KeyLessTotal(TextKey(a), TextKey(a));
    if TextKey(a) == TextKey(b) { ResourceOrder.CodesInjective(a, b); }
  }

  lemma TextTransitive(a: string, b: string, c: string)
    ensures ResourceOrder.KeyLess(TextKey(a), TextKey(b)) && ResourceOrder.KeyLess(TextKey(b), TextKey(c)) ==>
      ResourceOrder.KeyLess(TextKey(a), TextKey(c))
  {
    if ResourceOrder.KeyLess(TextKey(a), TextKey(b)) && ResourceOrder.KeyLess(TextKey(b), TextKey(c)) {
      ResourceOrder.KeyLessTransitive(TextKey(a), TextKey(b), TextKey(c));
    }
  }

  lemma PrecedesTotal(a: Selector, b: Selector)
    ensures Precedes(a, b) || Precedes(b, a) || a == b
    ensures !(Precedes(a, b) && Precedes(b, a)) && !Precedes(a, a)
  {
    TextTotal(a.participant, b.participant);
    TextTotal(a.title, b.title);
  }

  lemma PrecedesTransitive(a: Selector, b: Selector, c: Selector)
    requires Precedes(a, b) && Precedes(b, c)
    ensures Precedes(a, c)
  {
    TextTransitive(a.participant, b.participant, c.participant);
    TextTransitive(a.title, b.title, c.title);
  }

  predicate Leads(s: Selector, selectors: set<Selector>) {
    s in selectors && forall q | q in selectors && q != s :: Precedes(s, q)
  }

  lemma {:induction false} LeaderExists(selectors: set<Selector>)
    requires selectors != {}
    ensures exists s :: Leads(s, selectors)
    decreases |selectors|
  {
    var y :| y in selectors;
    var rest := selectors - {y};
    assert selectors == {y} + rest;
    if rest == {} {
      assert Leads(y, selectors);
    } else {
      LeaderExists(rest);
      var m :| Leads(m, rest);
      PrecedesTotal(y, m);
      if Precedes(y, m) {
        forall q | q in selectors && q != y ensures Precedes(y, q) {
          if q != m { PrecedesTransitive(y, m, q); }
        }
        assert Leads(y, selectors);
      } else {
        assert Leads(m, selectors);
      }
    }
  }

  /** The selectors, each once, in their order. */
  ghost predicate Enumerates(order: seq<Selector>, selectors: set<Selector>) {
    && (forall s :: s in order <==> s in selectors)
    && (forall i, j | 0 <= i < j < |order| :: Precedes(order[i], order[j]))
  }

  lemma FirstLeads(order: seq<Selector>, selectors: set<Selector>)
    requires Enumerates(order, selectors) && order != []
    ensures Leads(order[0], selectors) && Enumerates(order[1..], selectors - {order[0]})
  {
    forall q | q in selectors && q != order[0] ensures Precedes(order[0], q) {
      var i :| 0 <= i < |order| && order[i] == q;
    }
    assert order == [order[0]] + order[1..];
    forall i | 0 <= i < |order[1..]| ensures order[1..][i] != order[0] {
      PrecedesTotal(order[0], order[i + 1]);
    }
  }

  lemma EmptyOrder(order: seq<Selector>, selectors: set<Selector>)
    requires Enumerates(order, selectors)
    ensures order == [] <==> selectors == {}
  {
    if order != [] { assert order[0] in order; }
    assert forall s | s in selectors :: s in order;
  }

  /** There is one such order. */
  lemma {:induction false} OrderUnique(a: seq<Selector>, b: seq<Selector>, selectors: set<Selector>)
    requires Enumerates(a, selectors) && Enumerates(b, selectors)
    ensures a == b
    decreases |a|
  {
    EmptyOrder(a, selectors);
    EmptyOrder(b, selectors);
    if a != [] {
      FirstLeads(a, selectors);
      FirstLeads(b, selectors);
      PrecedesTotal(a[0], b[0]);
      OrderUnique(a[1..], b[1..], selectors - {a[0]});
      assert a == [a[0]] + a[1..] && b == [b[0]] + b[1..];
    }
  }

  // ---- slots

  predicate Claimed(views: map<nat, View>, selector: Selector) {
    exists owner | owner in views :: views[owner].selector == selector
  }

  predicate Visible(views: map<nat, View>, selector: Selector) {
    exists owner | owner in views :: Shows(views, owner, selector)
  }

  predicate Injective(slots: map<Selector, nat>) {
    forall a, b | a in slots && b in slots && slots[a] == slots[b] :: a == b
  }

  function Retained(views: map<nat, View>, slots: map<Selector, nat>): map<Selector, nat> {
    map s | s in slots && Claimed(views, s) :: slots[s]
  }

  /** Visible selections that already have a slot or whose track is there. */
  function Wanted(views: map<nat, View>, slots: map<Selector, nat>, tracks: set<Selector>): set<Selector> {
    set owner | owner in views && views[owner].visible
      && (views[owner].selector in slots || views[owner].selector in tracks)
      :: views[owner].selector
  }

  function FreeSlots(slots: map<Selector, nat>): set<nat> {
    set n | 0 <= n <= U32_MAX && n !in slots.Values
  }

  datatype Allocation = Allocation(slots: map<Selector, nat>, exhausted: bool)

  /** Gives the selectors their slots in turn: the one they have or the least free one, until none is left. */
  ghost function Allocated(slots: map<Selector, nat>, order: seq<Selector>): Allocation {
    if order == [] then Allocation(slots, false)
    else
      var last := |order| - 1;
      var before := Allocated(slots, order[..last]);
      if before.exhausted || order[last] in before.slots then before
      else if FreeSlots(before.slots) == {} then Allocation(before.slots, true)
      else before.(slots := before.slots[order[last] := Least(FreeSlots(before.slots))])
  }

  predicate SlotsOk(slots: map<Selector, nat>) {
    Injective(slots) && forall s | s in slots :: slots[s] <= U32_MAX
  }

  lemma LeastFreeOk(slots: map<Selector, nat>, selector: Selector)
    requires SlotsOk(slots) && selector !in slots && FreeSlots(slots) != {}
    ensures SlotsOk(slots[selector := Least(FreeSlots(slots))])
  {
    var slot := Least(FreeSlots(slots));
    assert slot in FreeSlots(slots);
    assert forall s | s in slots :: slots[s] in slots.Values;
  }

  lemma {:induction false} AllocatedKeeps(slots: map<Selector, nat>, order: seq<Selector>)
    requires SlotsOk(slots)
    ensures var a := Allocated(slots, order);
      && SlotsOk(a.slots)
      && (forall s | s in slots :: s in a.slots && a.slots[s] == slots[s])
      && (!a.exhausted ==> forall s | s in order :: s in a.slots)
      && (forall s | s in a.slots :: s in slots || s in order)
    decreases |order|
  {
    if order != [] {
      var last := |order| - 1;
      AllocatedKeeps(slots, order[..last]);
      var before := Allocated(slots, order[..last]);
      assert order == order[..last] + [order[last]];
      if !before.exhausted && order[last] !in before.slots && FreeSlots(before.slots) != {} {
        LeastFreeOk(before.slots, order[last]);
      }
    }
  }

  lemma {:induction false} SlotsFit(slots: map<Selector, nat>)
    requires Injective(slots)
    ensures |slots.Values| == |slots|
    decreases |slots|
  {
    if s :| s in slots {
      var rest := slots - {s};
      SlotsFit(rest);
      forall v | v in slots.Values ensures v in rest.Values + {slots[s]} {
        var k :| k in slots && slots[k] == v;
        if k != s { assert rest[k] == v; }
      }
      assert slots.Values == rest.Values + {slots[s]};
    } else {
      assert slots == map[];
    }
  }

  lemma {:induction false} RangeCount(taken: set<nat>, n: nat)
    requires forall k | 0 <= k < n :: k in taken
    ensures n <= |taken|
    decreases n
  {
    if n > 0 { RangeCount(taken - {n - 1}, n - 1); }
  }

  /** Allocation gives up only when every one of the 2^32 slots is held. */
  lemma ExhaustedOnlyWhenFull(slots: map<Selector, nat>)
    requires Injective(slots) && FreeSlots(slots) == {}
    ensures |slots| > U32_MAX
  {
    forall k | 0 <= k < U32_MAX + 1 ensures k in slots.Values {
      assert k !in FreeSlots(slots);
    }
    RangeCount(slots.Values, U32_MAX + 1);
    SlotsFit(slots);
  }

  // ---- runs

  datatype State = State(views: map<nat, View>, slots: map<Selector, nat>)

  datatype Event =
    | Claim(owner: nat, selector: Selector)
    | Observe(owner: nat, visible: bool, demand: Demand)
    | Release(owner: nat)
    | Project(tracks: set<Selector>, order: seq<Selector>)

  ghost function Step(s: State, event: Event): State {
    match event
    case Claim(owner, selector) =>
      if owner in s.views then s else s.(views := s.views[owner := View(selector, false, UNSEEN)])
    case Observe(owner, visible, demand) =>
      if !WellFormed(demand) || owner !in s.views then s
      else s.(views := s.views[owner := View(s.views[owner].selector, visible, demand)])
    case Release(owner) => s.(views := s.views - {owner})
    case Project(tracks, order) =>
      if Enumerates(order, Wanted(s.views, s.slots, tracks))
      then s.(slots := Allocated(Retained(s.views, s.slots), order).slots)
      else s
  }

  ghost function Run(s: State, events: seq<Event>): State {
    if events == [] then s else Step(Run(s, events[..|events| - 1]), events[|events| - 1])
  }

  ghost predicate Inv(s: State) {
    && SlotsOk(s.slots)
    && (forall owner | owner in s.views :: WellFormed(s.views[owner].demand))
  }

  lemma StepInv(s: State, event: Event)
    requires Inv(s)
    ensures Inv(Step(s, event))
  {
    if event.Project? {
      AllocatedKeeps(Retained(s.views, s.slots), event.order);
    }
  }

  /** In every run distinct selectors hold distinct slots and delays stay well formed. */
  lemma {:induction false} RunInv(s: State, events: seq<Event>)
    requires Inv(s)
    ensures Inv(Run(s, events))
    decreases |events|
  {
    if events != [] {
      RunInv(s, events[..|events| - 1]);
      StepInv(Run(s, events[..|events| - 1]), events[|events| - 1]);
    }
  }

  /** A selector keeps its slot over any run in which some view, hidden or not, claims it at every projection. */
  lemma {:induction false} SlotIsStable(s: State, events: seq<Event>, selector: Selector)
    requires Inv(s) && selector in s.slots
    requires forall i | 0 <= i < |events| && events[i].Project? :: Claimed(Run(s, events[..i]).views, selector)
    ensures selector in Run(s, events).slots && Run(s, events).slots[selector] == s.slots[selector]
    decreases |events|
  {
    if events != [] {
      var last := |events| - 1;
      forall i | 0 <= i < last && events[..last][i].Project?
        ensures Claimed(Run(s, events[..last][..i]).views, selector) {
        assert events[..last][..i] == events[..i];
      }
      SlotIsStable(s, events[..last], selector);
      RunInv(s, events[..last]);
      if events[last].Project? {
        var t := Run(s, events[..last]);
        AllocatedKeeps(Retained(t.views, t.slots), events[last].order);
      }
    }
  }

  // ---- the object

  datatype Subscription = Subscription(slot: nat, selector: Selector, demand: Demand)

  class VideoViews {
    var views: map<nat, View>
    var slots: map<Selector, nat>

    ghost function TheState(): State
      reads this
    {
      State(views, slots)
    }

    constructor ()
      ensures TheState() == State(map[], map[])
    {
      views, slots := map[], map[];
    }

    method Claim(owner: nat, selector: Selector) returns (ok: bool)
      modifies this
      ensures ok == (owner !in old(views))
      ensures TheState() == Step(old(TheState()), Event.Claim(owner, selector))
    {
      ok := owner !in views;
      if ok {
        views := views[owner := View(selector, false, UNSEEN)];
      }
    }

    method Observe(owner: nat, visible: bool, demand: Demand) returns (ok: bool)
      modifies this
      ensures ok == (WellFormed(demand) && owner in old(views))
      ensures TheState() == Step(old(TheState()), Event.Observe(owner, visible, demand))
    {
      ok := WellFormed(demand) && owner in views;
      if ok {
        views := views[owner := View(views[owner].selector, visible, demand)];
      }
    }

    method Release(owner: nat) returns (ok: bool)
      modifies this
      ensures ok == (owner in old(views))
      ensures TheState() == Step(old(TheState()), Event.Release(owner))
    {
      ok := owner in views;
      views := views - {owner};
    }

    /** Every visible selector with the least demand that covers its visible views. */
    method Group() returns (grouped: map<Selector, Demand>)
      ensures forall s :: s in grouped <==> Visible(views, s)
      ensures forall s | s in grouped :: Aggregates(grouped[s], views, views.Keys, s)
    {
      grouped := map[];
      var left, done := views.Keys, {};
      while left != {}
        invariant left !! done && left + done == views.Keys
        invariant forall s :: s in grouped <==> exists owner | owner in done :: Shows(views, owner, s)
        invariant forall s | s in grouped :: Aggregates(grouped[s], views, done, s)
        decreases |left|
      {
        var owner :| owner in left;
        grouped := AddView(grouped, owner, done);
        left, done := left - {owner}, done + {owner};
      }
      assert done == views.Keys;
    }

    method AddView(grouped: map<Selector, Demand>, owner: nat, ghost done: set<nat>)
      returns (next: map<Selector, Demand>)
      requires owner in views && owner !in done
      requires forall s :: s in grouped <==> exists o | o in done :: Shows(views, o, s)
      requires forall s | s in grouped :: Aggregates(grouped[s], views, done, s)
      ensures forall s :: s in next <==> exists o | o in done + {owner} :: Shows(views, o, s)
      ensures forall s | s in next :: Aggregates(next[s], views, done + {owner}, s)
    {
      var view := views[owner];
      next := grouped;
      if view.visible {
        var aggregate := if view.selector in grouped then grouped[view.selector] else view.demand;
        next := grouped[view.selector := Join(aggregate, view.demand)];
        if view.selector in grouped {
          AggregateNext(aggregate, views, done, owner, view.selector);
        } else {
          JoinLaws(view.demand, view.demand, view.demand);
          AggregateFirst(views, done, owner, view.selector);
        }
      }
      forall s | s in next && !Shows(views, owner, s) ensures Aggregates(next[s], views, done + {owner}, s) {
        AggregateOther(grouped[s], views, done, owner, s);
      }
      assert owner in done + {owner};
      assert forall o | o in done :: o in done + {owner};
    }

    /** Allots slots in the given order; what was already allotted stays when slots run out. */
    method Allot(order: seq<Selector>) returns (ok: bool)
      modifies `slots
      ensures Allocation(slots, !ok) == Allocated(old(slots), order)
    {
      for i := 0 to |order|
        invariant Allocation(slots, false) == Allocated(old(slots), order[..i])
      {
        assert order[..i + 1][..i] == order[..i];
        if order[i] !in slots {
          var free := FreeSlots(slots);
          if free == {} {
            StaysExhausted(old(slots), order, i + 1);
            return false;
          }
          slots := slots[order[i] := Least(free)];
        }
      }
      assert order[..|order|] == order;
      return true;
    }

    /** Lists subscriptions in the order of their slots. */
    method InSlotOrder(bySlot: map<nat, Subscription>) returns (result: seq<Subscription>)
      requires forall n | n in bySlot :: bySlot[n].slot == n
      ensures forall i, j | 0 <= i < j < |result| :: result[i].slot < result[j].slot
      ensures forall i | 0 <= i < |result| :: result[i].slot in bySlot && bySlot[result[i].slot] == result[i]
      ensures forall n | n in bySlot :: bySlot[n] in result
    {
      result := [];
      var left := bySlot.Keys;
      while left != {}
        invariant left <= bySlot.Keys
        invariant forall n | n in bySlot && n !in left :: bySlot[n] in result
        invariant forall i | 0 <= i < |result| :: result[i].slot in bySlot && bySlot[result[i].slot] == result[i]
        invariant forall i, n | 0 <= i < |result| && n in left :: result[i].slot < n
        invariant forall i, j | 0 <= i < j < |result| :: result[i].slot < result[j].slot
        decreases |left|
      {
        var n := Least(left);
        result := result + [bySlot[n]];
        left := left - {n};
      }
    }

    /** One subscription for each selector of the order, with its slot and its demand, by slot. */
    method Compose(order: seq<Selector>, grouped: map<Selector, Demand>) returns (result: seq<Subscription>)
      requires Injective(slots) && forall s | s in order :: s in slots && s in grouped
      ensures forall i, j | 0 <= i < j < |result| :: result[i].slot < result[j].slot
      ensures forall s | s in order :: Subscription(slots[s], s, grouped[s]) in result
      ensures forall t | t in result ::
        t.selector in order && t == Subscription(slots[t.selector], t.selector, grouped[t.selector])
    {
      var bySlot := map s | s in order :: slots[s] := Subscription(slots[s], s, grouped[s]);
      result := InSlotOrder(bySlot);
      forall s | s in order ensures Subscription(slots[s], s, grouped[s]) in result {
        assert bySlot[slots[s]] in result;
      }
    }

    /** Lists selectors in their order. */
    method InOrder(selectors: set<Selector>) returns (order: seq<Selector>)
      ensures Enumerates(order, selectors)
    {
      order := [];
      var left := selectors;
      while left != {}
        invariant left <= selectors
        invariant forall s :: s in order <==> s in selectors && s !in left
        invariant forall i, j | 0 <= i < j < |order| :: Precedes(order[i], order[j])
        invariant forall s, q | s in order && q in left :: Precedes(s, q)
        decreases |left|
      {
        LeaderExists(left);
        var s :| s in left && Leads(s, left);
        order := order + [s];
        left := left - {s};
      }
    }

    /** The subscriptions of a projection: one for each wanted selector, with its slot and its aggregate, by slot. */
    method Project(tracks: set<Selector>) returns (result: Option<seq<Subscription>>, order: seq<Selector>)
      requires Inv(TheState())
      modifies `slots
      ensures Enumerates(order, Wanted(views, old(slots), tracks))
      ensures TheState() == Step(old(TheState()), Event.Project(tracks, order))
      ensures result.None? <==> Allocated(Retained(views, old(slots)), order).exhausted
      ensures result.Some? ==> forall i, j | 0 <= i < j < |result.value| :: result.value[i].slot < result.value[j].slot
      ensures result.Some? ==> forall s | s in order :: exists t | t in result.value :: t.selector == s
      ensures result.Some? ==> forall t | t in result.value ::
        && t.selector in order && t.selector in slots && t.slot == slots[t.selector]
        && Aggregates(t.demand, views, views.Keys, t.selector)
    {
      var grouped := Group();
      order := InOrder(Wanted(views, slots, tracks));
      forall s | s in order ensures s in grouped {
        var owner :| owner in views && views[owner].visible && views[owner].selector == s;
        assert Shows(views, owner, s);
      }
      slots := Retained(views, slots);
      ghost var retained := slots;
      var ok := Allot(order);
      AllocatedKeeps(retained, order);
      if !ok {
        return None, order;
      }
      var subscriptions := Compose(order, grouped);
      forall s | s in order ensures exists t | t in subscriptions :: t.selector == s {
        assert Subscription(slots[s], s, grouped[s]) in subscriptions;
      }
      result := Some(subscriptions);
    }
  }

  lemma {:induction false} StaysExhausted(slots: map<Selector, nat>, order: seq<Selector>, n: nat)
    requires n <= |order| && Allocated(slots, order[..n]).exhausted
    ensures Allocated(slots, order) == Allocated(slots, order[..n])
    decreases |order|
  {
    if n == |order| {
      assert order[..n] == order;
    } else {
      assert order[..|order| - 1][..n] == order[..n];
      StaysExhausted(slots, order[..|order| - 1], n);
    }
  }
}
