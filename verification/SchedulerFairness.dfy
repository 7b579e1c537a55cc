/**
 * The frame scheduler cannot starve a resource. While a resource stays dirty, no
 * other resource is sent as a target twice before it and no two withdrawals pass
 * without a target between them, however calls, frames and events interleave.
 */
module SchedulerFairness {
  import opened Basics
  import opened Wire
  import opened ResourceOrder
  import opened Reconciliation

  /** Going round the circle from `a`, `b` comes up before `goal` does. */
  predicate Ahead(goal: Resource, a: Resource, b: Resource) {
    if Less(goal, a) then Less(a, b) || Less(b, goal) else Less(a, b) && Less(b, goal)
  }

  lemma AheadTransitive(goal: Resource, a: Resource, b: Resource, c: Resource)
    requires a != goal && b != goal && c != goal
    requires Ahead(goal, a, b) && Ahead(goal, b, c)
    ensures Ahead(goal, a, c)
  {
    LessTotal(goal, a);
    LessTotal(goal, b);
    LessTotal(goal, c);
    if Less(a, b) && Less(b, c) { LessTransitive(a, b, c); }
    if Less(a, b) && Less(goal, a) { LessTransitive(goal, a, b); }
  }

  lemma AheadIrreflexive(goal: Resource, a: Resource)
    requires a != goal
    ensures !Ahead(goal, a, a)
  {
    LessTotal(a, a);
    LessTotal(goal, a);
  }

  /** One turn of the round robin moves towards the goal without passing it. */
  lemma PickIsAhead(dirty: set<Resource>, cursor: Resource, goal: Resource)
    requires goal in dirty && cursor != goal
    requires NextAfter(dirty, Some(cursor)) != Some(goal)
    ensures Ahead(goal, cursor, NextAfter(dirty, Some(cursor)).value)
  {
    var pick := NextAfter(dirty, Some(cursor)).value;
    var later := set q | q in dirty && Less(cursor, q);
    LessTotal(goal, cursor);
    if later == {} {
      assert goal !in later;
      assert IsFirst(dirty, pick);
    } else {
      assert IsFirst(later, pick);
      if Less(cursor, goal) { assert goal in later; }
    }
  }

  // ---- the records of a run

  function StepRecords(c: Codec, s: State, event: Event): seq<Record> {
    if event.FrameEvent? && !s.terminal then Schedule(c, s, []).records else []
  }

  function RunRecords(c: Codec, s: State, events: seq<Event>): seq<Record> {
    if events == [] then []
    else
      var last := |events| - 1;
      RunRecords(c, s, events[..last]) + StepRecords(c, Run(c, s, events[..last]), events[last])
  }

  ghost predicate PresentWithin(records: seq<Record>, i: int, j: int) {
    exists k | i < k < j && 0 <= k < |records| :: records[k].body.Present?
  }

  /** Targets sent so far move strictly round the circle towards the goal, up to the cursor. */
  ghost predicate TargetsAdvance(goal: Resource, records: seq<Record>, cursor: Option<Resource>) {
    && (forall i | 0 <= i < |records| && records[i].body.Present? ::
          && records[i].resource != goal
          && cursor.Some? && cursor.value != goal
          && (records[i].resource == cursor.value || Ahead(goal, records[i].resource, cursor.value)))
    && (forall i, j | 0 <= i < j < |records| && records[i].body.Present? && records[j].body.Present? ::
          Ahead(goal, records[i].resource, records[j].resource))
  }

  /** Withdrawals alternate with targets, and one with no target after it has used up the preference. */
  ghost predicate WithdrawalsAlternate(records: seq<Record>, preferRetirement: bool) {
    && (forall i, j | 0 <= i < j < |records| && records[i].body.Withdraw? && records[j].body.Withdraw? ::
          PresentWithin(records, i, j))
    && (forall i | 0 <= i < |records| && records[i].body.Withdraw? ::
          PresentWithin(records, i, |records|) || !preferRetirement)
  }

  ghost predicate Fair(goal: Resource, records: seq<Record>, l: Ledger) {
    TargetsAdvance(goal, records, l.cursor) && WithdrawalsAlternate(records, l.preferRetirement)
  }

  lemma CommitAdvances(goal: Resource, records: seq<Record>, l: Ledger, record: Record)
    requires TargetsAdvance(goal, records, l.cursor) && goal in l.dirty
    requires Sends(NextWork(l)) && record == RecordFor(l, NextWork(l)) && HasRow(l, record)
    requires goal in Committed(l, record).dirty
    ensures TargetsAdvance(goal, records + [record], Committed(l, record).cursor)
  {
    if record.body.Present? {
      assert Some(record.resource) == NextAfter(l.dirty, l.cursor);
      forall i | 0 <= i < |records| && records[i].body.Present?
        ensures Ahead(goal, records[i].resource, record.resource)
      {
        PickIsAhead(l.dirty, l.cursor.value, goal);
        if records[i].resource != l.cursor.value {
          AheadTransitive(goal, records[i].resource, l.cursor.value, record.resource);
        }
      }
    }
  }

  lemma PresentWithinGrows(records: seq<Record>, record: Record, i: int, j: int)
    requires PresentWithin(records, i, j)
    ensures PresentWithin(records + [record], i, j)
  {
    var k :| i < k < j && 0 <= k < |records| && records[k].body.Present?;
    assert (records + [record])[k].body.Present?;
  }

  lemma CommitAlternates(goal: Resource, records: seq<Record>, l: Ledger, record: Record)
    requires WithdrawalsAlternate(records, l.preferRetirement) && goal in l.dirty
    requires Sends(NextWork(l)) && record == RecordFor(l, NextWork(l)) && HasRow(l, record)
    ensures WithdrawalsAlternate(records + [record], Committed(l, record).preferRetirement)
  {
    var next := records + [record];
    forall i | 0 <= i < |records| && records[i].body.Withdraw?
      ensures PresentWithin(next, i, |next|) || !Committed(l, record).preferRetirement
      ensures record.body.Withdraw? ==> PresentWithin(next, i, |records|)
    {
      if PresentWithin(records, i, |records|) {
        PresentWithinGrows(records, record, i, |records|);
      }
      if record.body.Present? { assert next[|records|].body.Present?; }
    }
    forall i, j | 0 <= i < j < |next| && next[i].body.Withdraw? && next[j].body.Withdraw?
      ensures PresentWithin(next, i, j)
    {
      if j < |records| { PresentWithinGrows(records, record, i, j); }
    }
  }

  lemma CommitFair(goal: Resource, before: seq<Record>, batch: seq<Record>, l: Ledger, record: Record)
    requires Fair(goal, before + batch, l) && goal in l.dirty
    requires Sends(NextWork(l)) && record == RecordFor(l, NextWork(l)) && HasRow(l, record)
    requires goal in Committed(l, record).dirty
    ensures Fair(goal, before + (batch + [record]), Committed(l, record))
  {
    CommitAdvances(goal, before + batch, l, record);
    CommitAlternates(goal, before + batch, l, record);
    assert (before + batch) + [record] == before + (batch + [record]);
  }

  /** The loop only empties the dirty set, so a goal that is still there was there all along. */
  lemma {:induction false} ScheduleFair(c: Codec, s: State, batch: seq<Record>, goal: Resource, before: seq<Record>)
    requires goal in Schedule(c, s, batch).state.ledger.dirty
    requires Fair(goal, before + batch, s.ledger)
    ensures Fair(goal, before + Schedule(c, s, batch).records, Schedule(c, s, batch).state.ledger)
    decreases Pending(s.ledger)
  {
    TurnShape(c, s, batch);
    ScheduleDirty(c, s, batch);
    match TurnOf(c, s, batch)
    case Stop(_) =>
    case Skip(s1) => ScheduleFair(c, s1, batch, goal, before);
    case Add(s1, record) =>
      ScheduleDirty(c, s1, batch + [record]);
      CommitFair(goal, before, batch, s.ledger, record);
      ScheduleFair(c, s1, batch + [record], goal, before);
  }

  lemma {:induction false} ScheduleDirty(c: Codec, s: State, batch: seq<Record>)
    ensures Schedule(c, s, batch).state.ledger.dirty <= s.ledger.dirty
    decreases Pending(s.ledger)
  {
    TurnShape(c, s, batch);
    match TurnOf(c, s, batch)
    case Stop(_) =>
    case Skip(s1) => ScheduleDirty(c, s1, batch);
    case Add(s1, record) => ScheduleDirty(c, s1, batch + [record]);
  }

  ghost predicate StaysDirty(c: Codec, s: State, events: seq<Event>, goal: Resource) {
    forall n {:trigger events[..n]} | 0 <= n <= |events| :: goal in Run(c, s, events[..n]).ledger.dirty
  }

  lemma QuietStep(c: Codec, s: State, event: Event)
    requires !event.FrameEvent? || s.terminal
    ensures var t := Step(c, s, event).ledger;
      t.cursor == s.ledger.cursor && t.preferRetirement == s.ledger.preferRetirement
  {
    if event.ServerEvent? { QuietRecords(c, s, event.batch.records); }
  }

  lemma QuietRecord(c: Codec, s: State, record: ServerRecord)
    ensures var t := ApplyRecord(c, s, record).state.ledger;
      t.cursor == s.ledger.cursor && t.preferRetirement == s.ledger.preferRetirement
  {
  }

  lemma {:induction false} QuietRecords(c: Codec, s: State, records: seq<ServerRecord>)
    ensures var t := ApplyRecords(c, s, records).state.ledger;
      t.cursor == s.ledger.cursor && t.preferRetirement == s.ledger.preferRetirement
    decreases |records|
  {
    if records != [] && !s.terminal {
      QuietRecord(c, s, records[0]);
      QuietRecords(c, ApplyRecord(c, s, records[0]).state, records[1..]);
    }
  }

  lemma StepFair(c: Codec, s: State, event: Event, goal: Resource, before: seq<Record>)
    requires Fair(goal, before, s.ledger) && goal in Step(c, s, event).ledger.dirty
    ensures Fair(goal, before + StepRecords(c, s, event), Step(c, s, event).ledger)
  {
    assert before + [] == before;
    if event.FrameEvent? && !s.terminal {
      ScheduleFair(c, s, [], goal, before);
    } else {
      QuietStep(c, s, event);
    }
  }

  lemma StaysDirtyPrefix(c: Codec, s: State, events: seq<Event>, goal: Resource, n: nat)
    requires StaysDirty(c, s, events, goal) && n <= |events|
    ensures StaysDirty(c, s, events[..n], goal)
  {
    forall m | 0 <= m <= n ensures goal in Run(c, s, events[..n][..m]).ledger.dirty {
      assert events[..n][..m] == events[..m];
    }
  }

  lemma {:induction false} RunFair(c: Codec, s: State, events: seq<Event>, goal: Resource)
    requires StaysDirty(c, s, events, goal)
    ensures Fair(goal, RunRecords(c, s, events), Run(c, s, events).ledger)
    decreases |events|
  {
    if events != [] {
      var last := |events| - 1;
      StaysDirtyPrefix(c, s, events, goal, last);
      RunFair(c, s, events[..last], goal);
      assert events[..|events|] == events;
      StepFair(c, Run(c, s, events[..last]), events[last], goal, RunRecords(c, s, events[..last]));
    }
  }

  /**
   * Bounded bypass: while `goal` stays dirty, no resource is sent as a target
   * twice, `goal` itself is not, and between two withdrawals there is a target.
   */
  lemma BoundedBypass(c: Codec, s: State, events: seq<Event>, goal: Resource, i: nat, j: nat)
    requires StaysDirty(c, s, events, goal)
    requires i < j < |RunRecords(c, s, events)|
    ensures var records := RunRecords(c, s, events);
      && (records[i].body.Present? ==> records[i].resource != goal)
      && (records[i].body.Present? && records[j].body.Present? ==> records[i].resource != records[j].resource)
      && (records[i].body.Withdraw? && records[j].body.Withdraw? ==> PresentWithin(records, i, j))
  {
    RunFair(c, s, events, goal);
    var records := RunRecords(c, s, events);
    if records[i].body.Present? { AheadIrreflexive(goal, records[i].resource); }
  }
}
