/**
 * The two unordered ways of receiving a data track. Lossy delivery keeps a
 * sliding window of the numbers it has seen; latest delivery keeps the highest.
 */
module LossyDelivery {
  import opened Basics

  const DEDUPLICATION_CAPACITY: nat := 256

  datatype Window = Window(floor: nat, seen: set<nat>)

  const EMPTY := Window(0, {})

  predicate IsHighest(n: nat, numbers: set<nat>) {
    forall k | k in numbers :: k <= n
  }

  function FloorBelow(n: nat): nat {
    if n < DEDUPLICATION_CAPACITY - 1 then 0 else n - (DEDUPLICATION_CAPACITY - 1)
  }

  predicate Fresh(w: Window, n: nat) {
    w.floor <= n && n !in w.seen
  }

  function Slid(w: Window, n: nat): Window {
    if !Fresh(w, n) then w
    else
      var seen := w.seen + {n};
      if IsHighest(n, seen) then Window(FloorBelow(n), set k | k in seen && FloorBelow(n) <= k)
      else Window(w.floor, seen)
  }

  function Run(arrivals: seq<nat>): Window {
    if arrivals == [] then EMPTY else Slid(Run(arrivals[..|arrivals| - 1]), arrivals[|arrivals| - 1])
  }

  /** Whether the `i`th arrival of a run is handed to the application. */
  predicate Delivers(arrivals: seq<nat>, i: nat)
    requires i < |arrivals|
  {
    Fresh(Run(arrivals[..i]), arrivals[i])
  }

  /** What the window remembers of a run: the numbers near its highest arrival. */
  ghost predicate Remembers(arrivals: seq<nat>, w: Window) {
    && (forall k | k in w.seen :: k in arrivals && w.floor <= k)
    && (forall k | k in arrivals :: k < w.floor || k in w.seen)
    && (forall k | k in arrivals :: FloorBelow(k) <= w.floor)
    && (arrivals == [] ==> w.floor == 0)
    && (arrivals != [] ==> exists k | k in w.seen :: IsHighest(k, w.seen) && w.floor == FloorBelow(k))
  }

  lemma {:induction false} RunRemembers(arrivals: seq<nat>)
    ensures Remembers(arrivals, Run(arrivals))
    decreases |arrivals|
  {
    if arrivals != [] {
      var last := |arrivals| - 1;
      var n := arrivals[last];
      RunRemembers(arrivals[..last]);
      var w := Run(arrivals[..last]);
      var t := Run(arrivals);
      assert arrivals == arrivals[..last] + [n];
      if Fresh(w, n) && IsHighest(n, w.seen + {n}) {
        assert n in t.seen && IsHighest(n, t.seen);
      } else {
        var k :| k in w.seen && IsHighest(k, w.seen) && w.floor == FloorBelow(k);
        assert k in t.seen && IsHighest(k, t.seen);
      }
    }
  }

  /**
   * The window decides like the whole history would: an arrival is delivered
   * exactly when it is the first with its number and no earlier one is ahead of
   * it by the window's width or more.
   */
  lemma DeliveredExactly(arrivals: seq<nat>, i: nat)
    requires i < |arrivals|
    ensures Delivers(arrivals, i) <==>
      arrivals[i] !in arrivals[..i] && forall k | k in arrivals[..i] :: k < arrivals[i] + DEDUPLICATION_CAPACITY
  {
    RunRemembers(arrivals[..i]);
    var w := Run(arrivals[..i]);
    if w.seen != {} {
      var h :| h in w.seen && IsHighest(h, w.seen) && w.floor == FloorBelow(h);
      assert h in arrivals[..i];
      forall k | k in arrivals[..i] ensures k <= h {
        if k !in w.seen { assert k < w.floor; }
      }
    }
  }

  /** No number is delivered twice, whatever arrives in between. */
  lemma DeliveredAtMostOnce(arrivals: seq<nat>, i: nat, j: nat)
    requires i < j < |arrivals| && arrivals[i] == arrivals[j]
    ensures !Delivers(arrivals, j)
  {
    DeliveredExactly(arrivals, j);
    assert arrivals[..j][i] == arrivals[j];
  }

  /** The window never holds more than its capacity. */
  lemma WindowBounded(arrivals: seq<nat>)
    ensures |Run(arrivals).seen| <= DEDUPLICATION_CAPACITY
  {
    RunRemembers(arrivals);
    var w := Run(arrivals);
    if w.seen != {} {
      var h :| h in w.seen && IsHighest(h, w.seen) && w.floor == FloorBelow(h);
      RangeSize(w.seen, w.floor, h + 1);
    }
  }

  lemma {:induction false} RangeSize(numbers: set<nat>, low: nat, high: nat)
    requires low <= high && forall k | k in numbers :: low <= k < high
    ensures |numbers| <= high - low
    decreases high - low
  {
    if low == high {
      assert numbers == {};
    } else {
      RangeSize(numbers - {low}, low + 1, high);
      assert |numbers| <= |numbers - {low}| + 1;
    }
  }

  class LossyWindow {
    var floor: nat
    var seen: set<nat>

    ghost function View(): Window
      reads this
    {
      Window(floor, seen)
    }

    constructor ()
      ensures View() == EMPTY
    {
      floor, seen := 0, {};
    }

    method Accept(sequence: nat) returns (delivered: bool)
      modifies this
      ensures delivered == Fresh(old(View()), sequence)
      ensures View() == Slid(old(View()), sequence)
    {
      if sequence < floor || sequence in seen {
        return false;
      }
      seen := seen + {sequence};
      if IsHighest(sequence, seen) {
        floor := FloorBelow(sequence);
        seen := set k | k in seen && floor <= k;
      }
      return true;
    }
  }

  // ---- latest delivery

  function Highest(arrivals: seq<nat>): Option<nat> {
    if arrivals == [] then None
    else
      var before := Highest(arrivals[..|arrivals| - 1]);
      var n := arrivals[|arrivals| - 1];
      if before.None? || n > before.value then Some(n) else before
  }

  predicate DeliversLatest(arrivals: seq<nat>, i: nat)
    requires i < |arrivals|
  {
    var before := Highest(arrivals[..i]);
    before.None? || arrivals[i] > before.value
  }

  lemma {:induction false} HighestIsHighest(arrivals: seq<nat>)
    ensures arrivals == [] <==> Highest(arrivals).None?
    ensures Highest(arrivals).Some? ==> Highest(arrivals).value in arrivals
    ensures forall k | k in arrivals :: k <= Highest(arrivals).value
    decreases |arrivals|
  {
    if arrivals != [] {
      var last := |arrivals| - 1;
      HighestIsHighest(arrivals[..last]);
      assert arrivals == arrivals[..last] + [arrivals[last]];
    }
  }

  /** An arrival is delivered exactly when it is newer than everything before it. */
  lemma LatestOnlyAdvances(arrivals: seq<nat>, i: nat)
    requires i < |arrivals|
    ensures DeliversLatest(arrivals, i) <==> forall k | k in arrivals[..i] :: k < arrivals[i]
  {
    HighestIsHighest(arrivals[..i]);
  }
}
