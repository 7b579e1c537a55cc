/**
 * Splitting an H.264 byte stream (Annex B of ITU-T H.264) into access units
 * (section 7.4.1.2.3). The scanner works on byte positions; the specification
 * is a list of NAL units, grouped at the first access-unit starter after a slice.
 */
module FrameSlicer {
  import opened Basics

  newtype Byte = b: int | 0 <= b < 256

  datatype Nalu = Nalu(start: nat, end: nat, kind: nat)

  /** The byte at a position, or -1 past the end. */
  function ByteAt(data: seq<Byte>, i: nat): int {
    if i < |data| then data[i] as int else -1
  }

  /** The position after a three- or four-byte start code at `position`. */
  function StartCodeAt(data: seq<Byte>, position: nat): (header: Option<nat>)
    ensures header.Some? ==> position + 3 <= header.value <= position + 4 && header.value <= |data|
  {
    if ByteAt(data, position) != 0 || ByteAt(data, position + 1) != 0 then None
    else if ByteAt(data, position + 2) == 1 then Some(position + 3)
    else if ByteAt(data, position + 2) == 0 && ByteAt(data, position + 3) == 1 then Some(position + 4)
    else None
  }

  // ---- the specification

  /** A start code the scanner recognises: one with at least one byte after its third. */
  predicate Recognised(data: seq<Byte>, position: nat) {
    position + 3 < |data| && StartCodeAt(data, position).Some?
  }

  /** The first recognised start code at or after a position. */
  function FirstStart(data: seq<Byte>, from: nat): (p: Option<nat>)
    ensures p.Some? ==> from <= p.value && Recognised(data, p.value)
    decreases |data| - from
  {
    if from + 3 >= |data| then None
    else if StartCodeAt(data, from).Some? then Some(from)
    else FirstStart(data, from + 1)
  }

  lemma {:induction false} FirstStartIsFirst(data: seq<Byte>, from: nat, q: nat)
    requires from <= q && Recognised(data, q)
    ensures FirstStart(data, from).Some? && FirstStart(data, from).value <= q
    decreases q - from
  {
    if from < q { FirstStartIsFirst(data, from + 1, q); }
  }

  function NaluAt(data: seq<Byte>, start: nat): (n: Nalu)
    requires Recognised(data, start)
    ensures n.start == start && start + 3 <= n.end <= |data|
  {
    var header := StartCodeAt(data, start).value;
    var next := FirstStart(data, header);
    Nalu(start, if next.Some? then next.value else |data|, if header < |data| then (data[header] as nat) % 32 else 0)
  }

  function Nalus(data: seq<Byte>, from: nat): seq<Nalu>
    decreases |data| - from
  {
    var start := FirstStart(data, from);
    if start.None? then []
    else [NaluAt(data, start.value)] + Nalus(data, NaluAt(data, start.value).end)
  }

  predicate IsSlice(n: Nalu) {
    n.kind == 1 || n.kind == 5
  }

  predicate StartsAccessUnit(data: seq<Byte>, n: Nalu) {
    || 6 <= n.kind <= 9
    || (IsSlice(n) &&
        var code := StartCodeAt(data, n.start);
        var header := if code.Some? then code.value else n.start + 3;
        ByteAt(data, header + 1) >= 128)
  }

  /** How many units of the list belong to the frame that is being collected. */
  function UnitsInFrame(data: seq<Byte>, ns: seq<Nalu>, hasSlice: bool): (k: nat)
    ensures k <= |ns|
    decreases |ns|
  {
    if ns == [] || (hasSlice && StartsAccessUnit(data, ns[0])) then 0
    else 1 + UnitsInFrame(data, ns[1..], hasSlice || IsSlice(ns[0]))
  }

  ghost predicate SliceBefore(ns: seq<Nalu>, k: nat) {
    exists i | 0 <= i < k && i < |ns| :: IsSlice(ns[i])
  }

  /** The frame ends at the first access-unit starter that has a slice before it, and at no other unit. */
  lemma {:induction false} FrameEndsAtFirstStarter(data: seq<Byte>, ns: seq<Nalu>, hasSlice: bool)
    ensures var k := UnitsInFrame(data, ns, hasSlice);
      && (k < |ns| ==> StartsAccessUnit(data, ns[k]) && (hasSlice || SliceBefore(ns, k)))
      && (forall j | 0 <= j < k && StartsAccessUnit(data, ns[j]) :: !hasSlice && !SliceBefore(ns, j))
    decreases |ns|
  {
    var k := UnitsInFrame(data, ns, hasSlice);
    if k > 0 {
      var rest := ns[1..];
      FrameEndsAtFirstStarter(data, rest, hasSlice || IsSlice(ns[0]));
      if k < |ns| && !hasSlice && !IsSlice(ns[0]) {
        var i :| 0 <= i < k - 1 && i < |rest| && IsSlice(rest[i]);
        assert IsSlice(ns[i + 1]);
      } else if k < |ns| && !hasSlice {
        assert IsSlice(ns[0]);
      }
      forall j | 0 <= j < k && StartsAccessUnit(data, ns[j]) ensures !hasSlice && !SliceBefore(ns, j) {
        if j > 0 {
          assert rest[j - 1] == ns[j];
          forall i | 0 <= i < j ensures !IsSlice(ns[i]) {
            if i > 0 { assert rest[i - 1] == ns[i]; }
          }
        }
      }
    }
  }

  datatype Range = Range(from: nat, to: nat)

  /** The frames of a unit list, the first one from `position`, as byte ranges. */
  function FrameRanges(data: seq<Byte>, position: nat, ns: seq<Nalu>): seq<Range>
    decreases |ns|
  {
    if ns == [] then []
    else
      var k := UnitsInFrame(data, ns, false);
      if k == |ns| then [Range(position, |data|)]
      else [Range(position, ns[k].start)] + FrameRanges(data, ns[k].start, ns[k..])
  }

  function Cut(data: seq<Byte>, r: Range): seq<Byte> {
    if r.from <= r.to <= |data| then data[r.from..r.to] else []
  }

  function Concat(data: seq<Byte>, ranges: seq<Range>): seq<Byte> {
    if ranges == [] then [] else Cut(data, ranges[0]) + Concat(data, ranges[1..])
  }

  // ---- what the specification promises

  /** Units follow each other without a gap, and each starts at a recognised start code. */
  ghost predicate Chained(data: seq<Byte>, ns: seq<Nalu>) {
    && (forall i | 0 <= i < |ns| :: Recognised(data, ns[i].start) && ns[i] == NaluAt(data, ns[i].start))
    && (forall i | 0 <= i < |ns| - 1 :: ns[i].end == ns[i + 1].start)
    && (ns != [] ==> ns[|ns| - 1].end == |data|)
  }

  lemma {:induction false} NalusChained(data: seq<Byte>, from: nat)
    ensures Chained(data, Nalus(data, from))
    ensures Nalus(data, from) != [] ==> FirstStart(data, from) == Some(Nalus(data, from)[0].start)
    decreases |data| - from
  {
    var start := FirstStart(data, from);
    if start.Some? {
      var n := NaluAt(data, start.value);
      NalusChained(data, n.end);
      var rest := Nalus(data, n.end);
      if FirstStart(data, StartCodeAt(data, n.start).value).Some? {
        assert Recognised(data, n.end) && FirstStart(data, n.end) == Some(n.end);
        assert rest != [] && rest[0].start == n.end;
      } else {
        assert FirstStart(data, |data|).None? && rest == [];
      }
    }
  }

  /** Restarting the scan at a unit finds that unit and all after it. */
  lemma {:induction false} NalusResume(data: seq<Byte>, from: nat, k: nat)
    requires k < |Nalus(data, from)|
    ensures Nalus(data, Nalus(data, from)[k].start) == Nalus(data, from)[k..]
    decreases k
  {
    var ns := Nalus(data, from);
    NalusChained(data, from);
    var start := ns[0].start;
    assert FirstStart(data, start) == Some(start);
    if k == 0 {
      assert ns[0..] == ns;
    } else {
      var n := NaluAt(data, start);
      assert ns[1..] == Nalus(data, n.end);
      NalusResume(data, n.end, k - 1);
      assert ns[1..][k - 1] == ns[k] && ns[1..][k - 1..] == ns[k..];
    }
  }

  /** Unit positions grow, as far as frames care. */
  ghost predicate InOrder(data: seq<Byte>, ns: seq<Nalu>) {
    && (forall i | 0 <= i < |ns| :: ns[i].start < |data|)
    && (forall i, j | 0 <= i < j < |ns| :: ns[i].start <= ns[j].start && ns[i].end <= ns[j].start)
  }

  lemma {:induction false} UnitsOrdered(data: seq<Byte>, ns: seq<Nalu>, i: nat, j: nat)
    requires Chained(data, ns) && i < j < |ns|
    ensures ns[i].start <= ns[j].start && ns[i].end <= ns[j].start
    decreases j - i
  {
    if i < j - 1 { UnitsOrdered(data, ns, i, j - 1); }
  }

  lemma NalusInOrder(data: seq<Byte>, from: nat)
    ensures InOrder(data, Nalus(data, from))
    ensures Nalus(data, from) != [] ==> from <= Nalus(data, from)[0].start
  {
    var ns := Nalus(data, from);
    NalusChained(data, from);
    forall i, j | 0 <= i < j < |ns| ensures ns[i].start <= ns[j].start && ns[i].end <= ns[j].start {
      UnitsOrdered(data, ns, i, j);
    }
  }

  lemma {:induction false} RangesTile(data: seq<Byte>, position: nat, ns: seq<Nalu>)
    requires ns != [] && InOrder(data, ns) && position <= ns[0].start
    ensures Concat(data, FrameRanges(data, position, ns)) == data[position..]
    decreases |ns|
  {
    var k := UnitsInFrame(data, ns, false);
    var ranges := FrameRanges(data, position, ns);
    if k == |ns| {
      assert ranges[1..] == [];
      assert data[position..|data|] + [] == data[position..];
    } else {
      var next := ns[k].start;
      RangesTile(data, next, ns[k..]);
      assert ranges[1..] == FrameRanges(data, next, ns[k..]);
      assert data[position..next] + data[next..] == data[position..];
    }
  }

  /**
   * Splitting loses nothing: when the stream has a recognised start code the
   * frames concatenate to the stream, and otherwise there is no frame.
   */
  lemma SplitRoundTrips(data: seq<Byte>)
    ensures var ranges := FrameRanges(data, 0, Nalus(data, 0));
      if exists p :: Recognised(data, p) then ranges != [] && Concat(data, ranges) == data else ranges == []
  {
    NalusInOrder(data, 0);
    if p :| Recognised(data, p) {
      FirstStartIsFirst(data, 0, p);
      RangesTile(data, 0, Nalus(data, 0));
      assert data[0..] == data;
    }
  }

  ghost predicate StartsUnit(ns: seq<Nalu>, position: nat) {
    exists m | 0 <= m < |ns| :: ns[m].start == position
  }

  ghost predicate HoldsSlice(ns: seq<Nalu>, r: Range) {
    exists m | 0 <= m < |ns| :: IsSlice(ns[m]) && r.from <= ns[m].start && ns[m].end <= r.to
  }

  lemma SuffixUnits(ns: seq<Nalu>, k: nat, r: Range)
    requires k <= |ns|
    ensures StartsUnit(ns[k..], r.from) ==> StartsUnit(ns, r.from)
    ensures HoldsSlice(ns[k..], r) ==> HoldsSlice(ns, r)
  {
    var rest := ns[k..];
    if m :| 0 <= m < |rest| && rest[m].start == r.from { assert ns[k + m] == rest[m]; }
    if m :| 0 <= m < |rest| && IsSlice(rest[m]) && r.from <= rest[m].start && rest[m].end <= r.to {
      assert ns[k + m] == rest[m];
    }
  }

  /** Every boundary between frames is the start of a unit, and every frame but the last holds a slice. */
  lemma {:induction false} BoundariesAreUnits(data: seq<Byte>, position: nat, ns: seq<Nalu>, i: nat)
    requires InOrder(data, ns) && (ns != [] ==> position <= ns[0].start)
    requires i < |FrameRanges(data, position, ns)|
    ensures var ranges := FrameRanges(data, position, ns);
      && ranges[0].from == position
      && (i > 0 ==> StartsUnit(ns, ranges[i].from) && ranges[i - 1].to == ranges[i].from)
      && (i < |ranges| - 1 ==> HoldsSlice(ns, ranges[i]))
    decreases |ns|
  {
    var ranges := FrameRanges(data, position, ns);
    var k := UnitsInFrame(data, ns, false);
    if k < |ns| {
      var next := FrameRanges(data, ns[k].start, ns[k..]);
      assert ranges[1..] == next;
      if i == 0 {
        FrameEndsAtFirstStarter(data, ns, false);
        var m :| 0 <= m < k && m < |ns| && IsSlice(ns[m]);
        assert position <= ns[m].start && ns[m].end <= ns[k].start;
      } else {
        BoundariesAreUnits(data, ns[k].start, ns[k..], i - 1);
        SuffixUnits(ns, k, ranges[i]);
        assert StartsUnit(ns, ns[k].start);
        assert i > 1 ==> next[i - 1] == ranges[i] && next[i - 2] == ranges[i - 1];
      }
    }
  }

  /** Where the frame that begins at `at` stops. */
  function FrameStop(data: seq<Byte>, at: nat): nat {
    var ns := Nalus(data, at);
    var k := UnitsInFrame(data, ns, false);
    if k < |ns| then ns[k].start else |data|
  }

  lemma StopInside(data: seq<Byte>, at: nat, ns: seq<Nalu>, k: nat)
    requires ns == Nalus(data, at) && ns != [] && k == UnitsInFrame(data, ns, false) && k < |ns|
    ensures at < ns[k].start < |data| && Nalus(data, ns[k].start) == ns[k..]
  {
    NalusChained(data, at);
    NalusInOrder(data, at);
    NalusResume(data, at, k);
  }

  /** One frame at a time gives the frames of the whole list. */
  lemma FrameRangesStep(data: seq<Byte>, at: nat)
    requires Nalus(data, at) != []
    ensures at < FrameStop(data, at) <= |data|
    ensures FrameRanges(data, at, Nalus(data, at))
            == [Range(at, FrameStop(data, at))]
               + FrameRanges(data, FrameStop(data, at), Nalus(data, FrameStop(data, at)))
  {
    var ns := Nalus(data, at);
    var k := UnitsInFrame(data, ns, false);
    if k < |ns| {
      StopInside(data, at, ns, k);
    } else {
      LastEnds(data, at);
      assert Nalus(data, |data|) == [];
    }
  }

  lemma NalusHead(data: seq<Byte>, at: nat)
    ensures FirstStart(data, at).None? <==> Nalus(data, at) == []
    ensures var ns := Nalus(data, at);
      ns != [] ==> ns[0] == NaluAt(data, FirstStart(data, at).value) && ns[1..] == Nalus(data, ns[0].end)
  {
  }

  lemma LastEnds(data: seq<Byte>, at: nat)
    ensures var ns := Nalus(data, at); ns != [] ==> at <= ns[0].start < |data| && ns[|ns| - 1].end == |data|
  {
    NalusChained(data, at);
  }

  function Head(ns: seq<Nalu>): Option<Nalu> {
    if ns == [] then None else Some(ns[0])
  }

  function Scan(data: seq<Byte>, from: nat): Option<Nalu> {
    if FirstStart(data, from).Some? then Some(NaluAt(data, FirstStart(data, from).value)) else None
  }

  /** What one turn of the frame loop learns: the unit at hand and where the rest of the list starts. */
  lemma ScanStep(data: seq<Byte>, search: nat, hasSlice: bool)
    ensures var ns := Nalus(data, search);
      && Scan(data, search) == Head(ns)
      && (ns != [] ==>
            && ns[1..] == Nalus(data, ns[0].end)
            && UnitsInFrame(data, ns, hasSlice)
               == if hasSlice && StartsAccessUnit(data, ns[0]) then 0
                 else 1 + UnitsInFrame(data, ns[1..], hasSlice || IsSlice(ns[0])))
  {
    NalusHead(data, search);
  }

  // ---- the scanner

  class H264FrameSlicer {
    const data: seq<Byte>
    var position: nat

    constructor (data: seq<Byte>)
      ensures this.data == data && position == 0
    {
      this.data := data;
      position := 0;
    }

    method NextNalu(start: nat) returns (n: Option<Nalu>)
      ensures n == Scan(data, start)
    {
      var p := start;
      while p + 3 < |data|
        invariant FirstStart(data, p) == FirstStart(data, start)
        decreases |data| - p
      {
        var code := StartCodeAt(data, p);
        if code.None? {
          p := p + 1;
          continue;
        }
        var header := code.value;
        var kind := if header < |data| then (data[header] as nat) % 32 else 0;
        var next := header;
        while next + 3 < |data|
          invariant header <= next && FirstStart(data, next) == FirstStart(data, header)
          decreases |data| - next
        {
          if StartCodeAt(data, next).Some? {
            return Some(Nalu(p, next, kind));
          }
          next := next + 1;
        }
        return Some(Nalu(p, |data|, kind));
      }
      return None;
    }

    /** The next frame: from the current position up to the first access-unit starter after a slice. */
    method Next() returns (frame: Option<Range>)
      modifies this
      ensures old(position) >= |data| ==> frame == None && position == old(position)
      ensures old(position) < |data| ==>
        if Nalus(data, old(position)) == [] then frame == None && position == |data|
        else frame == Some(Range(old(position), position)) && position == FrameStop(data, old(position))
    {
      if position >= |data| {
        return None;
      }
      ghost var ns := Nalus(data, position);
      var frameStart, frameEnd, hasSlice, search := position, position, false, position;
      ghost var k := 0;
      var n := NextNalu(search);
      while n.Some?
        invariant k <= |ns| && ns[k..] == Nalus(data, search)
        invariant n == Scan(data, search)
        invariant UnitsInFrame(data, ns, false) == k + UnitsInFrame(data, ns[k..], hasSlice)
        invariant search == frameEnd == (if k == 0 then frameStart else ns[k - 1].end)
        decreases |ns| - k
      {
        ScanStep(data, search, hasSlice);
        assert ns[k..][0] == ns[k] && ns[k..][1..] == ns[k + 1..];
        if hasSlice && StartsAccessUnit(data, n.value) {
          position := n.value.start;
          return Some(Range(frameStart, n.value.start));
        }
        if IsSlice(n.value) {
          hasSlice := true;
        }
        frameEnd := n.value.end;
        search := n.value.end;
        k := k + 1;
        n := NextNalu(search);
      }
      ScanStep(data, search, hasSlice);
      LastEnds(data, old(position));
      position := |data|;
      return if frameEnd > frameStart then Some(Range(frameStart, frameEnd)) else None;
    }

    /** Iterating from the start yields exactly the frames of the unit list. */
    method Collect() returns (ranges: seq<Range>)
      requires position == 0
      modifies this
      ensures ranges == FrameRanges(data, 0, Nalus(data, 0))
    {
      ranges := [];
      ghost var all := FrameRanges(data, 0, Nalus(data, 0));
      while true
        invariant position <= |data|
        invariant all == ranges + FrameRanges(data, position, Nalus(data, position))
        decreases |data| - position
      {
        ghost var at := position;
        var frame := Next();
        if frame.None? {
          return;
        }
        FrameRangesStep(data, at);
        ranges := ranges + [frame.value];
      }
    }
  }
}
