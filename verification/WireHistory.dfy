/**
 * What a server may rely on. A monitor that knows nothing of targets, queues or
 * cursors judges the history of one connection: the records the client commits,
 * the reports its host files, and the confirmations it accepts. Every run of the
 * client is accepted by the monitor, with its state as a function of the client's.
 */
module WireHistory {
  import opened Basics
  import opened Wire
  import opened Reconciliation
  import opened ReconciliationInvariants

  datatype Item =
    | Sent(record: Record)
    | Filed(reference: nat, failure: Failure)
    | Evaluated(reference: nat, revision: nat, ended: bool)

  /**
   * One lifetime: the last desired revision, the last evaluated one, a report on its way, and
   * whether its end was asked for.
   */
  datatype Phase = Phase(resource: Resource, sent: nat, evaluated: nat, report: Option<Failure>, withdrawn: bool)

  datatype Monitor = Monitor(revision: nat, live: map<nat, Phase>)

  ghost predicate Legal(m: Monitor, item: Item) {
    match item
    case Sent(record) =>
      && record.revision == m.revision + 1
      && (record.body.Present? && record.reference == record.revision ==>
            record.reference !in m.live
            && forall reference | reference in m.live :: m.live[reference].resource != record.resource)
      && (!(record.body.Present? && record.reference == record.revision) ==>
            && record.reference in m.live
            && m.live[record.reference].resource == record.resource
            && !m.live[record.reference].withdrawn
            && match record.body
               case Present(_) => m.live[record.reference].evaluated == m.live[record.reference].sent
               case Withdraw => m.live[record.reference].report.None?
               case Execution(failure) => m.live[record.reference].report == Some(failure))
    case Filed(reference, _) => reference in m.live && !m.live[reference].withdrawn
    case Evaluated(reference, revision, _) =>
      reference in m.live && m.live[reference].evaluated <= revision <= m.live[reference].sent
  }

  ghost function After(m: Monitor, item: Item): Monitor
    requires Legal(m, item)
  {
    match item
    case Sent(record) =>
      Monitor(
        record.revision,
        m.live[record.reference :=
          match record.body
          case Present(_) =>
            if record.reference in m.live then m.live[record.reference].(sent := record.revision)
            else Phase(record.resource, record.revision, 0, None, false)
          case Withdraw => m.live[record.reference].(sent := record.revision, withdrawn := true)
          case Execution(_) => m.live[record.reference].(report := None)])
    case Filed(reference, failure) =>
      m.(live := m.live[reference := m.live[reference].(report := Some(failure))])
    case Evaluated(reference, revision, ended) =>
      m.(live := if ended then m.live - {reference} else m.live[reference := m.live[reference].(evaluated := revision)])
  }

  ghost predicate Accepts(m: Monitor, history: seq<Item>)
    decreases |history|
  {
    history == [] || (Legal(m, history[0]) && Accepts(After(m, history[0]), history[1..]))
  }

  ghost function Final(m: Monitor, history: seq<Item>): Monitor
    requires Accepts(m, history)
    decreases |history|
  {
    if history == [] then m else Final(After(m, history[0]), history[1..])
  }

  lemma {:induction false} AcceptsAppend(m: Monitor, first: seq<Item>, rest: seq<Item>)
    requires Accepts(m, first) && Accepts(Final(m, first), rest)
    ensures Accepts(m, first + rest) && Final(m, first + rest) == Final(Final(m, first), rest)
    decreases |first|
  {
    if first == [] {
      assert first + rest == rest;
    } else {
      assert (first + rest)[1..] == first[1..] + rest;
      AcceptsAppend(After(m, first[0]), first[1..], rest);
    }
  }

  // ---- the client seen by the monitor

  ghost function PhaseOf(l: Ledger, reference: nat): Phase
    requires reference in l.owned
  {
    var row := l.owned[reference];
    Phase(row.resource, row.sentRevision, if row.confirmed.Some? then row.confirmed.value.evaluatedRevision else 0,
          row.execution, row.retiring && reference !in l.retiring)
  }

  ghost function Seen(l: Ledger): Monitor {
    Monitor(l.revision, map reference | reference in l.owned :: PhaseOf(l, reference))
  }

  // ---- the history of a run

  ghost function SentItems(records: seq<Record>): seq<Item> {
    seq(|records|, i requires 0 <= i < |records| => Sent(records[i]))
  }

  /** An owned record leaves a trace exactly when the client acts on it. */
  ghost function RecordItems(c: Codec, s: State, record: ServerRecord): seq<Item> {
    if record.OwnedRecord? && ApplyRecord(c, s, record).changes != []
    then [Evaluated(record.reference, record.state.evaluatedRevision, record.state.value.Absent?)]
    else []
  }

  ghost function BatchItems(c: Codec, s: State, records: seq<ServerRecord>): seq<Item>
    decreases |records|
  {
    if records == [] || s.terminal then []
    else
      var first := ApplyRecord(c, s, records[0]);
      RecordItems(c, s, records[0]) + (if first.error.Some? then [] else BatchItems(c, first.state, records[1..]))
  }

  ghost function StepItems(c: Codec, s: State, event: Event): seq<Item> {
    match event
    case StageEvent(_, _) => []
    case RetryEvent(_) => []
    case ReportEvent(reference, failure) =>
      if Report(c, s, reference, failure).0 != s then [Filed(reference, failure)] else []
    case FrameEvent => if s.terminal then [] else SentItems(Schedule(c, s, []).records)
    case ServerEvent(batch) => if s.terminal then [] else BatchItems(c, s, batch.records)
  }

  ghost function History(c: Codec, s: State, events: seq<Event>): seq<Item>
    decreases |events|
  {
    if events == [] then []
    else
      var last := |events| - 1;
      History(c, s, events[..last]) + StepItems(c, Run(c, s, events[..last]), events[last])
  }

  // ---- every step is legal

  lemma StagedSeen(l: Ledger, resource: Resource, spec: Option<ResourceSpec>)
    requires Inv(l)
    ensures Seen(Staged(l, resource, spec)) == Seen(l)
  {
    var t := Staged(l, resource, spec);
    assert resource in l.targets ==> TargetOk(l, resource);
    assert t.owned.Keys == l.owned.Keys;
    forall reference | reference in l.owned ensures PhaseOf(t, reference) == PhaseOf(l, reference) {
      assert RowOk(l, reference);
    }
  }

  lemma ReportedSeen(l: Ledger, reference: nat, failure: Failure)
    requires Inv(l) && reference in l.owned && !l.owned[reference].retiring
    ensures Legal(Seen(l), Filed(reference, failure))
    ensures After(Seen(l), Filed(reference, failure)) == Seen(Reported(l, reference, failure))
  {
  }

  lemma CommittedLegal(l: Ledger, record: Record)
    requires Inv(l) && RecordOk(l, record)
    ensures Legal(Seen(l), Sent(record))
  {
    assert Touched(l, record);
    if record.body.Present? && record.reference == record.revision {
      forall reference | reference in l.owned ensures l.owned[reference].resource != record.resource {
        assert RowOk(l, reference);
      }
    }
  }

  lemma CommittedSeen(l: Ledger, record: Record)
    requires Inv(l) && RecordOk(l, record)
    ensures Legal(Seen(l), Sent(record))
    ensures After(Seen(l), Sent(record)) == Seen(Committed(l, record))
  {
    CommittedLegal(l, record);
    assert Touched(l, record);
    var t := Committed(l, record);
    assert After(Seen(l), Sent(record)).live.Keys == t.owned.Keys;
    forall reference | reference in t.owned
      ensures After(Seen(l), Sent(record)).live[reference] == PhaseOf(t, reference)
    {
    }
  }

  lemma SettledSeen(l: Ledger, reference: nat, state: ConfirmedState)
    requires Inv(l) && Timely(l, reference, state)
    ensures var item := Evaluated(reference, state.evaluatedRevision, state.value.Absent?);
      Legal(Seen(l), item) && After(Seen(l), item) == Seen(Settled(l, reference, state))
  {
    assert RowOk(l, reference);
    var item := Evaluated(reference, state.evaluatedRevision, state.value.Absent?);
    var t := Settled(l, reference, state);
    assert After(Seen(l), item).live.Keys == t.owned.Keys;
    forall other | other in t.owned ensures After(Seen(l), item).live[other] == PhaseOf(t, other) {
    }
  }

  lemma DiscardSeen(l: Ledger)
    requires NextWork(l).DropDirty?
    ensures Seen(Discard(l, NextWork(l))) == Seen(l)
  {
  }

  lemma TurnAccepted(c: Codec, s: State, batch: seq<Record>)
    requires Inv(s.ledger)
    ensures var turn := TurnOf(c, s, batch);
      && (turn.Skip? ==> Seen(turn.state.ledger) == Seen(s.ledger))
      && (turn.Add? ==>
            && Legal(Seen(s.ledger), Sent(turn.record))
            && After(Seen(s.ledger), Sent(turn.record)) == Seen(turn.state.ledger))
  {
    TurnInv(c, s, batch);
    var turn := TurnOf(c, s, batch);
    if turn.Skip? {
      DiscardSeen(s.ledger);
    } else if turn.Add? {
      CommittedSeen(s.ledger, turn.record);
    }
  }

  lemma SentItemsStep(records: seq<Record>, n: nat)
    requires n < |records|
    ensures SentItems(records[n..]) == [Sent(records[n])] + SentItems(records[n + 1..])
  {
  }

  lemma {:induction false} ScheduleAccepted(c: Codec, s: State, batch: seq<Record>)
    requires Inv(s.ledger)
    ensures batch <= Schedule(c, s, batch).records
    ensures var items := SentItems(Schedule(c, s, batch).records[|batch|..]);
      Accepts(Seen(s.ledger), items) && Final(Seen(s.ledger), items) == Seen(Schedule(c, s, batch).state.ledger)
    decreases Pending(s.ledger)
  {
    TurnInv(c, s, batch);
    TurnAccepted(c, s, batch);
    match TurnOf(c, s, batch)
    case Stop(_) =>
    case Skip(s1) => ScheduleAccepted(c, s1, batch);
    case Add(s1, record) =>
      ScheduleAccepted(c, s1, batch + [record]);
      SentItemsStep(Schedule(c, s, batch).records, |batch|);
  }

  lemma ApplyRecordAccepted(c: Codec, s: State, record: ServerRecord)
    requires Inv(s.ledger) && ValidServerRecord(record)
    ensures var items := RecordItems(c, s, record);
      Accepts(Seen(s.ledger), items)
      && Final(Seen(s.ledger), items) == Seen(ApplyRecord(c, s, record).state.ledger)
  {
    var items := RecordItems(c, s, record);
    if items != [] {
      SettledSeen(s.ledger, record.reference, record.state);
      assert Accepts(After(Seen(s.ledger), items[0]), items[1..]);
    }
  }

  lemma {:induction false} ApplyAccepted(c: Codec, s: State, records: seq<ServerRecord>)
    requires Inv(s.ledger) && forall record | record in records :: ValidServerRecord(record)
    ensures var items := BatchItems(c, s, records);
      Accepts(Seen(s.ledger), items)
      && Final(Seen(s.ledger), items) == Seen(ApplyRecords(c, s, records).state.ledger)
    decreases |records|
  {
    if records != [] && !s.terminal {
      var first := ApplyRecord(c, s, records[0]);
      ApplyRecordAccepted(c, s, records[0]);
      ApplyRecordInv(c, s, records[0]);
      if first.error.None? {
        ApplyAccepted(c, first.state, records[1..]);
        AcceptsAppend(Seen(s.ledger), RecordItems(c, s, records[0]), BatchItems(c, first.state, records[1..]));
      } else {
        assert BatchItems(c, s, records) == RecordItems(c, s, records[0]);
      }
    }
  }

  lemma StepAccepted(c: Codec, s: State, event: Event)
    requires Inv(s.ledger)
    requires event.ServerEvent? ==> ValidServerBatch(event.batch)
    ensures var items := StepItems(c, s, event);
      Accepts(Seen(s.ledger), items) && Final(Seen(s.ledger), items) == Seen(Step(c, s, event).ledger)
  {
    match event
    case StageEvent(resource, spec) => StagedSeen(s.ledger, resource, spec);
    case RetryEvent(resource) =>
    case ReportEvent(reference, failure) =>
      var items := StepItems(c, s, event);
      if items != [] {
        ReportedSeen(s.ledger, reference, failure);
        assert Accepts(After(Seen(s.ledger), items[0]), items[1..]);
      }
    case FrameEvent =>
      if !s.terminal {
        ScheduleAccepted(c, s, []);
        assert Schedule(c, s, []).records[0..] == Schedule(c, s, []).records;
      }
    case ServerEvent(batch) =>
      if !s.terminal { ApplyAccepted(c, s, batch.records); }
  }

  /** Every run is accepted, and the monitor ends where the client's rows say. */
  lemma {:induction false} RunAccepted(c: Codec, s: State, events: seq<Event>)
    requires Inv(s.ledger) && Decoded(events)
    ensures Accepts(Seen(s.ledger), History(c, s, events))
    ensures Final(Seen(s.ledger), History(c, s, events)) == Seen(Run(c, s, events).ledger)
    decreases |events|
  {
    if events != [] {
      var last := |events| - 1;
      assert Decoded(events[..last]);
      RunAccepted(c, s, events[..last]);
      RunInv(c, s, events[..last]);
      StepAccepted(c, Run(c, s, events[..last]), events[last]);
      AcceptsAppend(Seen(s.ledger), History(c, s, events[..last]),
                    StepItems(c, Run(c, s, events[..last]), events[last]));
    }
  }

  // ---- what acceptance means, index by index

  const START := Monitor(0, map[])

  ghost function At(history: seq<Item>, i: nat): Monitor
    requires i <= |history| && Accepts(START, history[..i])
  {
    Final(START, history[..i])
  }

  lemma {:induction false} AcceptsPrefix(m: Monitor, history: seq<Item>, i: nat)
    requires Accepts(m, history) && i <= |history|
    ensures Accepts(m, history[..i])
    ensures i < |history| ==>
      && Legal(Final(m, history[..i]), history[i])
      && Accepts(m, history[..i + 1])
      && Final(m, history[..i + 1]) == After(Final(m, history[..i]), history[i])
    decreases i
  {
    if i == 0 {
      if history != [] {
        assert history[..1][0] == history[0] && history[..1][1..] == [];
      }
    } else {
      AcceptsPrefix(After(m, history[0]), history[1..], i - 1);
      assert history[..i][1..] == history[1..][..i - 1];
      if i < |history| { assert history[..i + 1][1..] == history[1..][..i]; }
    }
  }

  /** The monitor before and after the item at `i`. */
  lemma Unfold(history: seq<Item>, i: nat)
    requires Accepts(START, history) && i < |history|
    ensures Accepts(START, history[..i]) && Accepts(START, history[..i + 1])
    ensures Legal(At(history, i), history[i]) && At(history, i + 1) == After(At(history, i), history[i])
  {
    AcceptsPrefix(START, history, i);
  }

  ghost predicate MonitorOk(m: Monitor) {
    && (forall a | a in m.live :: 1 <= a <= m.live[a].sent <= m.revision && m.live[a].evaluated <= m.live[a].sent)
    && (forall a, b | a in m.live && b in m.live && a != b :: m.live[a].resource != m.live[b].resource)
  }

  lemma AfterOk(m: Monitor, item: Item, t: Monitor)
    requires MonitorOk(m) && Legal(m, item) && t == After(m, item)
    ensures MonitorOk(t)
  {
    forall a | a in t.live
      ensures 1 <= a <= t.live[a].sent <= t.revision && t.live[a].evaluated <= t.live[a].sent
    {
      assert a in m.live ==> 1 <= a <= m.live[a].sent <= m.revision;
    }
    forall a, b | a in t.live && b in t.live && a != b ensures t.live[a].resource != t.live[b].resource {
      assert a in m.live && b in m.live ==> m.live[a].resource != m.live[b].resource;
    }
  }

  lemma {:induction false} AtOk(history: seq<Item>, i: nat)
    requires Accepts(START, history) && i <= |history|
    ensures Accepts(START, history[..i]) && MonitorOk(At(history, i))
    decreases i
  {
    if i > 0 {
      AtOk(history, i - 1);
      Unfold(history, i - 1);
      AfterOk(At(history, i - 1), history[i - 1], At(history, i));
    }
  }

  ghost predicate EndsAt(history: seq<Item>, reference: nat, k: nat) {
    k < |history| && history[k].Evaluated? && history[k].reference == reference && history[k].ended
  }

  ghost predicate EndsWithin(history: seq<Item>, reference: nat, i: nat, j: nat) {
    exists k: nat | i < k < j :: EndsAt(history, reference, k)
  }

  ghost predicate SentAt(history: seq<Item>, k: nat, reference: nat) {
    k < |history| && history[k].Sent? && history[k].record.reference == reference
  }

  /** A live reference stays live, on its resource, until it ends; once withdrawn it stays withdrawn. */
  lemma {:induction false} LivesOn(history: seq<Item>, reference: nat, i: nat, j: nat)
    requires Accepts(START, history) && i <= j <= |history|
    requires Accepts(START, history[..i]) && reference in At(history, i).live
    requires forall k: nat | i <= k < j :: !EndsAt(history, reference, k)
    ensures Accepts(START, history[..j])
    ensures reference in At(history, j).live
    ensures At(history, j).live[reference].resource == At(history, i).live[reference].resource
    ensures At(history, i).live[reference].withdrawn ==> At(history, j).live[reference].withdrawn
    ensures At(history, i).live[reference].sent <= At(history, j).live[reference].sent
    decreases j - i
  {
    if i < j {
      LivesOn(history, reference, i, j - 1);
      AtOk(history, j - 1);
      Unfold(history, j - 1);
      assert !EndsAt(history, reference, j - 1);
    }
  }

  /** A reference that is not live and not new never becomes live. */
  lemma {:induction false} StaysGone(history: seq<Item>, reference: nat, i: nat, j: nat)
    requires Accepts(START, history) && i <= j <= |history|
    requires Accepts(START, history[..i])
    requires reference !in At(history, i).live && reference <= At(history, i).revision
    ensures Accepts(START, history[..j])
    ensures reference !in At(history, j).live && reference <= At(history, j).revision
    decreases j - i
  {
    if i < j {
      StaysGone(history, reference, i, j - 1);
      Unfold(history, j - 1);
    }
  }

  /** Revisions count the records: the next record always carries the next number. */
  ghost function CountSent(history: seq<Item>): nat {
    if history == [] then 0
    else CountSent(history[..|history| - 1]) + (if history[|history| - 1].Sent? then 1 else 0)
  }

  lemma {:induction false} ConsecutiveRevisions(history: seq<Item>, i: nat)
    requires Accepts(START, history) && i <= |history|
    ensures Accepts(START, history[..i]) && At(history, i).revision == CountSent(history[..i])
    ensures i < |history| && history[i].Sent? ==> history[i].record.revision == CountSent(history[..i]) + 1
    decreases i
  {
    if i > 0 {
      ConsecutiveRevisions(history, i - 1);
      Unfold(history, i - 1);
      assert history[..i][..i - 1] == history[..i - 1];
    }
    if i < |history| { Unfold(history, i); }
  }

  /**
   * Lifetimes never overlap: between records of one resource under two references
   * the server confirmed the end of the first.
   */
  lemma LifetimesNeverOverlap(history: seq<Item>, i: nat, j: nat)
    requires Accepts(START, history) && i < j < |history|
    requires history[i].Sent? && history[j].Sent?
    requires history[i].record.resource == history[j].record.resource
    requires history[i].record.reference != history[j].record.reference
    ensures EndsWithin(history, history[i].record.reference, i, j)
  {
    var a := history[i].record.reference;
    Unfold(history, i);
    if !EndsWithin(history, a, i, j) {
      assert !EndsAt(history, a, i);
      forall k: nat | i + 1 <= k < j ensures !EndsAt(history, a, k) {
      }
      LivesOn(history, a, i + 1, j);
      Unfold(history, j);
      AtOk(history, j);
      assert false;
    }
  }

  /** References are never reused: nothing is sent under a reference that ended. */
  lemma ReferencesNeverReused(history: seq<Item>, i: nat, j: nat, reference: nat)
    requires Accepts(START, history) && i < j < |history|
    requires EndsAt(history, reference, i)
    ensures !SentAt(history, j, reference)
  {
    Unfold(history, i);
    AtOk(history, i);
    StaysGone(history, reference, i + 1, j);
    Unfold(history, j);
  }

  /** Nothing follows a withdrawal under its reference. */
  lemma NothingFollowsWithdrawal(history: seq<Item>, i: nat, j: nat)
    requires Accepts(START, history) && i < j < |history|
    requires history[i].Sent? && history[i].record.body.Withdraw?
    ensures !SentAt(history, j, history[i].record.reference)
  {
    var a := history[i].record.reference;
    Unfold(history, i);
    if SentAt(history, j, a) {
      if k: nat :| i < k < j && EndsAt(history, a, k) {
        ReferencesNeverReused(history, k, j, a);
      } else {
        LivesOn(history, a, i + 1, j);
        Unfold(history, j);
      }
      assert false;
    }
  }

  /** A lifetime opens with a Present whose revision is its reference. */
  lemma FirstRecordNamesReference(history: seq<Item>, i: nat)
    requires Accepts(START, history) && i < |history|
    requires history[i].Sent?
    requires forall k: nat | k < i :: !SentAt(history, k, history[i].record.reference)
    ensures history[i].record.body.Present? && history[i].record.revision == history[i].record.reference
  {
    var a := history[i].record.reference;
    Unfold(history, i);
    if a in At(history, i).live {
      LiveWasSent(history, i, a);
      assert false;
    }
  }

  lemma {:induction false} LiveWasSent(history: seq<Item>, i: nat, reference: nat)
    requires Accepts(START, history) && i <= |history|
    requires Accepts(START, history[..i]) && reference in At(history, i).live
    ensures exists k: nat | k < i :: SentAt(history, k, reference)
    decreases i
  {
    if i > 0 {
      Unfold(history, i - 1);
      if SentAt(history, i - 1, reference) {
      } else {
        LiveWasSent(history, i - 1, reference);
      }
    }
  }

  ghost predicate EvaluatedAt(history: seq<Item>, k: nat, reference: nat, revision: nat) {
    k < |history| && history[k].Evaluated? && history[k].reference == reference && revision <= history[k].revision
  }

  lemma {:induction false} NotYetEvaluated(history: seq<Item>, reference: nat, revision: nat, i: nat, j: nat)
    requires Accepts(START, history) && i <= j <= |history|
    requires Accepts(START, history[..i]) && reference in At(history, i).live
    requires At(history, i).live[reference].evaluated < revision
    requires forall k: nat | i <= k < j ::
      !EndsAt(history, reference, k) && !EvaluatedAt(history, k, reference, revision)
    ensures Accepts(START, history[..j])
    ensures reference in At(history, j).live && At(history, j).live[reference].evaluated < revision
    decreases j - i
  {
    if i < j {
      NotYetEvaluated(history, reference, revision, i, j - 1);
      LivesOn(history, reference, i, j - 1);
      AtOk(history, j - 1);
      Unfold(history, j - 1);
      assert !EndsAt(history, reference, j - 1) && !EvaluatedAt(history, j - 1, reference, revision);
    }
  }

  /** A lifetime is updated only after the server evaluated what it was last told. */
  lemma UpdatesAwaitEvaluation(history: seq<Item>, i: nat, j: nat)
    requires Accepts(START, history) && i < j < |history|
    requires history[i].Sent? && history[i].record.body.Present?
    requires history[j].Sent? && history[j].record.body.Present?
    requires history[i].record.reference == history[j].record.reference
    ensures exists k: nat | i < k < j ::
      EvaluatedAt(history, k, history[i].record.reference, history[i].record.revision)
  {
    var a := history[i].record.reference;
    var revision := history[i].record.revision;
    Unfold(history, i);
    AtOk(history, i);
    if forall k: nat | i < k < j :: !EvaluatedAt(history, k, a, revision) {
      forall k: nat | i < k < j ensures !EndsAt(history, a, k) {
        if EndsAt(history, a, k) { ReferencesNeverReused(history, k, j, a); }
      }
      NotYetEvaluated(history, a, revision, i + 1, j);
      LivesOn(history, a, i + 1, j);
      AtOk(history, j);
      Unfold(history, j);
      assert false;
    }
  }

  ghost predicate ReportedAt(history: seq<Item>, k: nat, reference: nat) {
    SentAt(history, k, reference) && history[k].record.body.Execution?
  }

  lemma {:induction false} ReportStays(history: seq<Item>, reference: nat, i: nat, j: nat)
    requires Accepts(START, history) && i <= j <= |history|
    requires Accepts(START, history[..i]) && reference in At(history, i).live
    requires At(history, i).live[reference].report.Some?
    requires forall k: nat | i <= k < j :: !EndsAt(history, reference, k) && !ReportedAt(history, k, reference)
    ensures Accepts(START, history[..j])
    ensures reference in At(history, j).live && At(history, j).live[reference].report.Some?
    decreases j - i
  {
    if i < j {
      ReportStays(history, reference, i, j - 1);
      AtOk(history, j - 1);
      Unfold(history, j - 1);
      assert !EndsAt(history, reference, j - 1) && !ReportedAt(history, j - 1, reference);
    }
  }

  /** A report that was filed goes out before its lifetime is withdrawn. */
  lemma ReportPrecedesWithdrawal(history: seq<Item>, i: nat, j: nat)
    requires Accepts(START, history) && i < j < |history|
    requires history[i].Filed?
    requires SentAt(history, j, history[i].reference) && history[j].record.body.Withdraw?
    ensures exists k: nat | i < k < j :: ReportedAt(history, k, history[i].reference)
  {
    var a := history[i].reference;
    Unfold(history, i);
    if forall k: nat | i < k < j :: !ReportedAt(history, k, a) {
      forall k: nat | i < k < j ensures !EndsAt(history, a, k) {
        if EndsAt(history, a, k) { ReferencesNeverReused(history, k, j, a); }
      }
      ReportStays(history, a, i + 1, j);
      Unfold(history, j);
      assert false;
    }
  }

  /** The history of a connection from its start. */
  lemma EveryConnectionAccepted(c: Codec, memoryLimit: nat, selfParticipant: Participant, events: seq<Event>)
    requires Decoded(events)
    ensures Accepts(START, History(c, Initial(memoryLimit, selfParticipant), events))
  {
    InitialInv();
    assert Seen(EMPTY_LEDGER) == START;
    RunAccepted(c, Initial(memoryLimit, selfParticipant), events);
  }
}
