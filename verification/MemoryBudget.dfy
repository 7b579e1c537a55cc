/**
 * The client accounts for memory by differences. After every run the running
 * total is exactly the sum over everything retained, and no difference ever
 * subtracts more than the total holds.
 */
module MemoryBudget {
  import opened Basics
  import opened Wire
  import opened Reconciliation
  import opened ReconciliationInvariants

  ghost function TargetWeights(c: Codec, targets: map<Resource, Target>): map<Resource, nat> {
    map resource | resource in targets :: TargetBytes(c, resource, targets[resource])
  }

  ghost function OwnedWeights(c: Codec, owned: map<nat, Owned>): map<nat, nat> {
    map reference | reference in owned :: OwnedBytes(c, owned[reference])
  }

  ghost function ParticipantWeights(c: Codec, participants: map<string, Participant>): map<string, nat> {
    map id | id in participants :: c.participantBytes(id, participants[id])
  }

  ghost function TrackWeights(c: Codec, tracks: map<string, Track>): map<string, nat> {
    map id | id in tracks :: c.trackBytes(id, tracks[id])
  }

  ghost function LedgerBytes(c: Codec, l: Ledger): nat {
    Sum(TargetWeights(c, l.targets)) + Sum(OwnedWeights(c, l.owned))
  }

  ghost function CatalogBytes(c: Codec, g: Catalog): nat {
    Sum(ParticipantWeights(c, g.participants)) + Sum(TrackWeights(c, g.tracks))
  }

  ghost function SessionBytes(c: Codec, session: Option<SessionState>): nat {
    if session.Some? then c.sessionBytes(session.value) else 0
  }

  ghost function Total(c: Codec, s: State): nat {
    LedgerBytes(c, s.ledger) + CatalogBytes(c, s.catalog) + SessionBytes(c, s.session)
  }

  ghost predicate Exact(c: Codec, s: State) {
    s.retainedBytes == Total(c, s) && s.retainedBytes <= s.memoryLimit
  }

  // ---- the ledger moves by the accounted difference

  lemma TargetUpdate(c: Codec, targets: map<Resource, Target>, resource: Resource, target: Target)
    ensures Sum(TargetWeights(c, targets[resource := target]))
            + (if resource in targets then TargetBytes(c, resource, targets[resource]) else 0)
            == Sum(TargetWeights(c, targets)) + TargetBytes(c, resource, target)
  {
    var w := TargetWeights(c, targets);
    assert TargetWeights(c, targets[resource := target]) == w[resource := TargetBytes(c, resource, target)];
    SumUpdate(w, resource, TargetBytes(c, resource, target));
  }

  lemma TargetRemoval(c: Codec, targets: map<Resource, Target>, resource: Resource)
    ensures Sum(TargetWeights(c, targets - {resource}))
            + (if resource in targets then TargetBytes(c, resource, targets[resource]) else 0)
            == Sum(TargetWeights(c, targets))
  {
    var w := TargetWeights(c, targets);
    assert TargetWeights(c, targets - {resource}) == w - {resource};
    if resource in targets { SumRemove(w, resource); } else { assert w - {resource} == w; }
  }

  lemma OwnedUpdate(c: Codec, owned: map<nat, Owned>, reference: nat, row: Owned)
    ensures Sum(OwnedWeights(c, owned[reference := row]))
            + (if reference in owned then OwnedBytes(c, owned[reference]) else 0)
            == Sum(OwnedWeights(c, owned)) + OwnedBytes(c, row)
  {
    var w := OwnedWeights(c, owned);
    assert OwnedWeights(c, owned[reference := row]) == w[reference := OwnedBytes(c, row)];
    SumUpdate(w, reference, OwnedBytes(c, row));
  }

  lemma OwnedRemoval(c: Codec, owned: map<nat, Owned>, reference: nat)
    requires reference in owned
    ensures Sum(OwnedWeights(c, owned - {reference})) + OwnedBytes(c, owned[reference]) == Sum(OwnedWeights(c, owned))
  {
    assert OwnedWeights(c, owned - {reference}) == OwnedWeights(c, owned) - {reference};
    SumRemove(OwnedWeights(c, owned), reference);
  }

  /** A target's references, waits and blocks take no room: only its key and spec do. */
  lemma SameSpecs(c: Codec, targets: map<Resource, Target>, next: map<Resource, Target>)
    requires next.Keys == targets.Keys
    requires forall resource | resource in targets :: next[resource].spec == targets[resource].spec
    ensures TargetWeights(c, next) == TargetWeights(c, targets)
  {
  }

  ghost function TargetBytesAt(c: Codec, l: Ledger, resource: Resource): nat {
    if resource in l.targets then TargetBytes(c, resource, l.targets[resource]) else 0
  }

  lemma StagedBytes(c: Codec, l: Ledger, resource: Resource, spec: Option<ResourceSpec>)
    ensures LedgerBytes(c, Staged(l, resource, spec)) + TargetBytesAt(c, l, resource)
            == LedgerBytes(c, l)
               + (if spec.Some? then TargetBytes(c, resource, StagedTarget(l, resource, spec.value)) else 0)
  {
    var t := Staged(l, resource, spec);
    assert OwnedWeights(c, t.owned) == OwnedWeights(c, l.owned);
    if spec.Some? {
      TargetUpdate(c, l.targets, resource, StagedTarget(l, resource, spec.value));
    } else {
      TargetRemoval(c, l.targets, resource);
    }
  }

  lemma RetriedBytes(c: Codec, l: Ledger, resource: Resource)
    ensures LedgerBytes(c, Retried(l, resource)) == LedgerBytes(c, l)
  {
    SameSpecs(c, l.targets, Retried(l, resource).targets);
  }

  lemma ReportedBytes(c: Codec, l: Ledger, reference: nat, failure: Failure)
    requires reference in l.owned
    ensures LedgerBytes(c, Reported(l, reference, failure)) + ReportBytes(c, l.owned[reference].execution)
            == LedgerBytes(c, l) + c.reportBytes(failure)
  {
    OwnedUpdate(c, l.owned, reference, l.owned[reference].(execution := Some(failure)));
  }

  /** What a record's account call gives back before it takes. */
  ghost function Released(c: Codec, l: Ledger, record: Record): nat
    requires HasRow(l, record)
  {
    if record.body.Execution? then c.reportBytes(record.body.failure)
    else if record.reference in l.owned then OwnedBytes(c, l.owned[record.reference])
    else 0
  }

  lemma CommittedBytes(c: Codec, l: Ledger, record: Record)
    requires HasRow(l, record)
    requires record.body.Execution? ==> l.owned[record.reference].execution == Some(record.body.failure)
    ensures LedgerBytes(c, Committed(l, record)) + Released(c, l, record)
            == LedgerBytes(c, l) + (if record.body.Execution? then 0 else OwnedBytes(c, RowAfter(l, record)))
    ensures Released(c, l, record) <= LedgerBytes(c, l)
  {
    SameSpecs(c, l.targets, Committed(l, record).targets);
    if record.body.Execution? {
      OwnedUpdate(c, l.owned, record.reference, l.owned[record.reference].(execution := None));
      OwnedRemoval(c, l.owned, record.reference);
    } else {
      OwnedUpdate(c, l.owned, record.reference, RowAfter(l, record));
      if record.reference in l.owned { OwnedRemoval(c, l.owned, record.reference); }
    }
  }

  lemma SettledBytes(c: Codec, l: Ledger, reference: nat, state: ConfirmedState)
    requires reference in l.owned
    ensures OwnedBytes(c, l.owned[reference]) <= LedgerBytes(c, l)
    ensures LedgerBytes(c, Settled(l, reference, state)) + OwnedBytes(c, l.owned[reference])
            == LedgerBytes(c, l)
               + (if state.value.Absent? then 0
                  else OwnedBytes(c, l.owned[reference]) - ConfirmedBytes(c, l.owned[reference].confirmed)
                       + c.confirmedBytes(state))
  {
    SameSpecs(c, l.targets, Settled(l, reference, state).targets);
    OwnedRemoval(c, l.owned, reference);
    if state.value.Live? {
      OwnedUpdate(c, l.owned, reference, l.owned[reference].(confirmed := Some(state)));
    }
  }

  lemma ParticipantBytesMove(c: Codec, g: Catalog, id: string, next: Option<Participant>)
    ensures var participants := if next.Some? then g.participants[id := next.value] else g.participants - {id};
      Sum(ParticipantWeights(c, participants)) + (if id in g.participants
        then c.participantBytes(id, g.participants[id]) else 0)
      == Sum(ParticipantWeights(c, g.participants)) + (if next.Some? then c.participantBytes(id, next.value) else 0)
  {
    var w := ParticipantWeights(c, g.participants);
    if next.Some? {
      assert ParticipantWeights(c, g.participants[id := next.value]) == w[id := c.participantBytes(id, next.value)];
      SumUpdate(w, id, c.participantBytes(id, next.value));
    } else {
      assert ParticipantWeights(c, g.participants - {id}) == w - {id};
      if id in w { SumRemove(w, id); } else { assert w - {id} == w; }
    }
  }

  lemma TrackBytesMove(c: Codec, g: Catalog, id: string, next: Option<Track>)
    ensures var tracks := if next.Some? then g.tracks[id := next.value] else g.tracks - {id};
      Sum(TrackWeights(c, tracks)) + (if id in g.tracks then c.trackBytes(id, g.tracks[id]) else 0)
      == Sum(TrackWeights(c, g.tracks)) + (if next.Some? then c.trackBytes(id, next.value) else 0)
  {
    var w := TrackWeights(c, g.tracks);
    if next.Some? {
      assert TrackWeights(c, g.tracks[id := next.value]) == w[id := c.trackBytes(id, next.value)];
      SumUpdate(w, id, c.trackBytes(id, next.value));
    } else {
      assert TrackWeights(c, g.tracks - {id}) == w - {id};
      if id in w { SumRemove(w, id); } else { assert w - {id} == w; }
    }
  }

  // ---- every operation keeps the total exact

  lemma StageExact(c: Codec, s: State, resource: Resource, spec: Option<ResourceSpec>)
    requires Exact(c, s)
    ensures Exact(c, Stage(c, s, resource, spec).0)
  {
    StagedBytes(c, s.ledger, resource, spec);
  }

  lemma ReportExact(c: Codec, s: State, reference: nat, failure: Failure)
    requires Exact(c, s)
    ensures Exact(c, Report(c, s, reference, failure).0)
  {
    if reference in s.ledger.owned { ReportedBytes(c, s.ledger, reference, failure); }
  }

  lemma CommitExact(c: Codec, s: State, record: Record, bytes: nat)
    requires Exact(c, s) && RecordOk(s.ledger, record) && CommitBytes(c, s, record) == Some(bytes)
    ensures Exact(c, s.(ledger := Committed(s.ledger, record), retainedBytes := bytes))
  {
    CommittedBytes(c, s.ledger, record);
  }

  lemma DiscardExact(c: Codec, s: State, work: Work)
    requires Exact(c, s)
    ensures Exact(c, s.(ledger := Discard(s.ledger, work)))
  {
  }

  lemma TurnExact(c: Codec, s: State, batch: seq<Record>)
    requires Inv(s.ledger) && Exact(c, s)
    ensures var turn := TurnOf(c, s, batch); turn.Stop? || Exact(c, turn.state)
  {
    TurnShape(c, s, batch);
    TurnInv(c, s, batch);
    var turn := TurnOf(c, s, batch);
    if turn.Skip? {
      DiscardExact(c, s, NextWork(s.ledger));
    } else if turn.Add? {
      CommitExact(c, s, turn.record, turn.state.retainedBytes);
    }
  }

  lemma {:induction false} ScheduleExact(c: Codec, s: State, batch: seq<Record>)
    requires Inv(s.ledger) && Exact(c, s)
    ensures Exact(c, Schedule(c, s, batch).state)
    decreases Pending(s.ledger)
  {
    TurnInv(c, s, batch);
    TurnExact(c, s, batch);
    match TurnOf(c, s, batch)
    case Stop(_) =>
    case Skip(s1) => ScheduleExact(c, s1, batch);
    case Add(s1, record) => ScheduleExact(c, s1, batch + [record]);
  }

  lemma ApplyOwnedExact(c: Codec, s: State, reference: nat, state: ConfirmedState)
    requires Exact(c, s)
    ensures Exact(c, ApplyOwned(c, s, reference, state).state)
  {
    var l := s.ledger;
    if reference in l.owned && OwnedError(l, s.catalog, reference, state).None?
      && l.owned[reference].confirmed != Some(state) {
      SettledBytes(c, l, reference, state);
      assert CatalogBytes(c, Reindexed(l, s.catalog, reference, state)) == CatalogBytes(c, s.catalog);
    }
  }

  lemma ApplyParticipantExact(c: Codec, s: State, id: string, next: Option<Participant>)
    requires Exact(c, s)
    ensures Exact(c, ApplyParticipant(c, s, id, next).state)
  {
    ParticipantBytesMove(c, s.catalog, id, next);
  }

  lemma ApplyTrackExact(c: Codec, s: State, id: string, next: Option<Track>)
    requires Exact(c, s)
    ensures Exact(c, ApplyTrack(c, s, id, next).state)
  {
    TrackBytesMove(c, s.catalog, id, next);
  }

  lemma ApplyRecordExact(c: Codec, s: State, record: ServerRecord)
    requires Exact(c, s)
    ensures Exact(c, ApplyRecord(c, s, record).state)
  {
    match record
    case OwnedRecord(reference, state) => ApplyOwnedExact(c, s, reference, state);
    case SessionRecord(_) =>
    case ParticipantRecord(id, next) => ApplyParticipantExact(c, s, id, next);
    case TrackRecord(id, next) => ApplyTrackExact(c, s, id, next);
  }

  lemma {:induction false} ApplyRecordsExact(c: Codec, s: State, records: seq<ServerRecord>)
    requires Exact(c, s)
    ensures Exact(c, ApplyRecords(c, s, records).state)
    decreases |records|
  {
    if records != [] && !s.terminal {
      ApplyRecordExact(c, s, records[0]);
      ApplyRecordsExact(c, ApplyRecord(c, s, records[0]).state, records[1..]);
    }
  }

  lemma StepExact(c: Codec, s: State, event: Event)
    requires Inv(s.ledger) && Exact(c, s)
    ensures Exact(c, Step(c, s, event))
  {
    match event
    case StageEvent(resource, spec) => StageExact(c, s, resource, spec);
    case RetryEvent(resource) => RetriedBytes(c, s.ledger, resource);
    case ReportEvent(reference, failure) => ReportExact(c, s, reference, failure);
    case FrameEvent => ScheduleExact(c, s, []);
    case ServerEvent(batch) => ApplyRecordsExact(c, s, batch.records);
  }

  /** After every run the running total is the sum over all that is retained, within the limit. */
  lemma {:induction false} RunExact(c: Codec, s: State, events: seq<Event>)
    requires Inv(s.ledger) && Exact(c, s) && Decoded(events)
    ensures Exact(c, Run(c, s, events))
    decreases |events|
  {
    if events != [] {
      var last := |events| - 1;
      assert Decoded(events[..last]);
      RunExact(c, s, events[..last]);
      RunInv(c, s, events[..last]);
      StepExact(c, Run(c, s, events[..last]), events[last]);
    }
  }

  lemma MemoryConserved(c: Codec, memoryLimit: nat, selfParticipant: Participant, events: seq<Event>)
    requires Decoded(events)
    ensures var s := Run(c, Initial(memoryLimit, selfParticipant), events);
      s.retainedBytes == Total(c, s) && s.retainedBytes <= s.memoryLimit
  {
    var s := Initial(memoryLimit, selfParticipant);
    InitialInv();
    assert TargetWeights(c, s.ledger.targets) == map[] && OwnedWeights(c, s.ledger.owned) == map[];
    assert ParticipantWeights(c, s.catalog.participants) == map[] && TrackWeights(c, s.catalog.tracks) == map[];
    RunExact(c, s, events);
  }

  /**
   * Every amount an account call gives back is held by the total, so that its
   * checked subtraction never fails; only the limit can refuse an operation.
   */
  lemma AccountNeverUnderflows(c: Codec, s: State)
    requires Inv(s.ledger) && Exact(c, s)
    ensures forall resource | resource in s.ledger.targets ::
      TargetBytes(c, resource, s.ledger.targets[resource]) <= s.retainedBytes
    ensures forall reference | reference in s.ledger.owned ::
      OwnedBytes(c, s.ledger.owned[reference]) <= s.retainedBytes
    ensures forall id | id in s.catalog.participants ::
      c.participantBytes(id, s.catalog.participants[id]) <= s.retainedBytes
    ensures forall id | id in s.catalog.tracks :: c.trackBytes(id, s.catalog.tracks[id]) <= s.retainedBytes
    ensures SessionBytes(c, s.session) <= s.retainedBytes
  {
    forall resource | resource in s.ledger.targets
      ensures TargetBytes(c, resource, s.ledger.targets[resource]) <= s.retainedBytes
    {
      TargetRemoval(c, s.ledger.targets, resource);
    }
    forall reference | reference in s.ledger.owned
      ensures OwnedBytes(c, s.ledger.owned[reference]) <= s.retainedBytes
    {
      OwnedRemoval(c, s.ledger.owned, reference);
    }
    forall id | id in s.catalog.participants
      ensures c.participantBytes(id, s.catalog.participants[id]) <= s.retainedBytes
    {
      ParticipantBytesMove(c, s.catalog, id, None);
    }
    forall id | id in s.catalog.tracks ensures c.trackBytes(id, s.catalog.tracks[id]) <= s.retainedBytes {
      TrackBytesMove(c, s.catalog, id, None);
    }
  }
}
