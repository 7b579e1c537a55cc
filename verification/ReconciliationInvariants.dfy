/**
 * What every operation of reconciliation keeps, and what holds after every run
 * against a server that may confirm, reject or end any reference at any time.
 */
module ReconciliationInvariants {
  import opened Basics
  import opened Wire
  import opened ResourceOrder
  import opened Reconciliation

  /** No wanted state is forgotten: it is queued, waits for something that is still to come, or was sent. */
  ghost predicate Tracked(l: Ledger, resource: Resource)
    requires resource in l.targets
  {
    var target := l.targets[resource];
    || resource in l.dirty
    || target.waitingFor.Some?
    || target.blocked
    || (target.reference.Some? && target.reference.value in l.owned
        && (l.owned[target.reference.value].AwaitingEvaluation()
            || SpecsEqual(l.owned[target.reference.value].sent, target.spec)))
  }

  ghost predicate TargetOk(l: Ledger, resource: Resource)
    requires resource in l.targets
  {
    var target := l.targets[resource];
    && target.waitingFor == Lookup(l.retiringResources, resource)
    && (target.waitingFor.Some? ==> target.reference.None? && !target.blocked && resource !in l.dirty)
    && (target.reference.Some? ==>
          && target.reference.value in l.owned
          && l.owned[target.reference.value].resource == resource
          && !l.owned[target.reference.value].retiring)
    && Tracked(l, resource)
  }

  ghost predicate RowOk(l: Ledger, reference: nat)
    requires reference in l.owned
  {
    var row := l.owned[reference];
    && (row.retiring ==>
          row.resource in l.retiringResources && l.retiringResources[row.resource] == reference)
    && (!row.retiring ==>
          && row.resource in l.targets && l.targets[row.resource].reference == Some(reference)
          && reference !in l.retiring)
    && 1 <= reference <= row.sentRevision <= l.revision
    && (row.confirmed.Some? ==>
          row.confirmed.value.value.Live? && reference <= row.confirmed.value.evaluatedRevision <= row.sentRevision)
    && (reference in l.executions <==> row.execution.Some?)
    && (row.retiring && reference !in l.retiring ==> reference < row.sentRevision && row.execution.None?)
  }

  ghost predicate QueuesOk(l: Ledger) {
    && l.revision <= U64_MAX
    && l.dirty <= l.targets.Keys
    && l.retiring <= l.owned.Keys
    && l.executions <= l.owned.Keys
    && (forall resource | resource in l.retiringResources ::
          && l.retiringResources[resource] in l.owned
          && l.owned[l.retiringResources[resource]].resource == resource
          && l.owned[l.retiringResources[resource]].retiring)
  }

  ghost predicate Inv(l: Ledger) {
    && QueuesOk(l)
    && (forall resource {:trigger TargetOk(l, resource)} | resource in l.targets :: TargetOk(l, resource))
    && (forall reference {:trigger RowOk(l, reference)} | reference in l.owned :: RowOk(l, reference))
  }

  lemma InitialInv()
    ensures Inv(EMPTY_LEDGER)
  {
  }

  // ---- staging

  lemma StagedQueues(l: Ledger, resource: Resource, spec: Option<ResourceSpec>)
    requires QueuesOk(l)
    requires resource in l.targets ==> TargetOk(l, resource)
    ensures QueuesOk(Staged(l, resource, spec))
  {
  }

  lemma StagedRow(l: Ledger, resource: Resource, spec: Option<ResourceSpec>, reference: nat)
    requires reference in l.owned && RowOk(l, reference)
    requires resource in l.targets ==> TargetOk(l, resource)
    ensures var t := Staged(l, resource, spec); reference in t.owned && RowOk(t, reference)
  {
  }

  lemma StagedTargetOk(l: Ledger, resource: Resource, spec: Option<ResourceSpec>, other: Resource)
    requires !Unchanged(l, resource, spec)
    requires resource in l.targets ==> TargetOk(l, resource)
    requires other in l.targets ==> TargetOk(l, other)
    requires resource in l.retiringResources ==> l.retiringResources[resource] in l.owned
    requires other in Staged(l, resource, spec).targets
    ensures TargetOk(Staged(l, resource, spec), other)
  {
  }

  lemma StagedInv(l: Ledger, resource: Resource, spec: Option<ResourceSpec>, t: Ledger)
    requires Inv(l) && !Unchanged(l, resource, spec) && t == Staged(l, resource, spec)
    ensures Inv(t)
  {
    assert resource in l.targets ==> TargetOk(l, resource);
    StagedQueues(l, resource, spec);
    forall reference | reference in t.owned ensures RowOk(t, reference) {
      assert RowOk(l, reference);
      StagedRow(l, resource, spec, reference);
    }
    forall other | other in t.targets ensures TargetOk(t, other) {
      assert other in l.targets ==> TargetOk(l, other);
      StagedTargetOk(l, resource, spec, other);
    }
  }

  lemma RetriedInv(l: Ledger, resource: Resource)
    requires Inv(l)
    ensures Inv(Retried(l, resource))
  {
    var t := Retried(l, resource);
    forall reference | reference in t.owned ensures RowOk(t, reference) { assert RowOk(l, reference); }
    forall other | other in t.targets ensures TargetOk(t, other) { assert TargetOk(l, other); }
  }

  lemma ReportedInv(l: Ledger, reference: nat, failure: Failure)
    requires Inv(l) && reference in l.owned && !l.owned[reference].retiring
    ensures Inv(Reported(l, reference, failure))
  {
    var t := Reported(l, reference, failure);
    forall other | other in t.owned ensures RowOk(t, other) { assert RowOk(l, other); }
    forall resource | resource in t.targets ensures TargetOk(t, resource) { assert TargetOk(l, resource); }
  }

  // ---- the frame loop

  /** In a reachable state the loop never meets stale work; it only puts deferred targets aside. */
  lemma WorkIsLive(l: Ledger)
    requires Inv(l)
    ensures var work := NextWork(l);
      && !work.DropExecution? && !work.DropRetirement?
      && (work.DropDirty? ==> work.resource in l.targets && Deferred(l, l.targets[work.resource]))
      && (work.SendRetirement? ==> l.owned[work.reference].retiring && work.reference !in l.executions)
  {
    var work := NextWork(l);
    if work.DropExecution? || work.DropRetirement? || work.SendRetirement? {
      assert RowOk(l, work.reference);
    }
  }

  lemma DiscardInv(l: Ledger)
    requires Inv(l) && NextWork(l).DropDirty?
    ensures Inv(Discard(l, NextWork(l)))
  {
    WorkIsLive(l);
    var t := Discard(l, NextWork(l));
    forall reference | reference in t.owned ensures RowOk(t, reference) { assert RowOk(l, reference); }
    forall resource | resource in t.targets ensures TargetOk(t, resource) { assert TargetOk(l, resource); }
  }

  /** What the loop knows of a record it is about to commit. */
  ghost predicate RecordOk(l: Ledger, record: Record) {
    && record.revision == l.revision + 1 <= U64_MAX
    && (record.body.Present? ==>
          && record.resource in l.targets && record.resource in l.dirty
          && record.body.spec == l.targets[record.resource].spec
          && !Deferred(l, l.targets[record.resource])
          && l.targets[record.resource].waitingFor.None?
          && record.reference == (if l.targets[record.resource].reference.Some?
                                  then l.targets[record.resource].reference.value else record.revision))
    && (!record.body.Present? ==>
          && record.reference in l.owned
          && record.resource == l.owned[record.reference].resource
          && (record.body.Withdraw? ==> record.reference in l.retiring && record.reference !in l.executions)
          && (record.body.Execution? ==>
                record.reference in l.executions && l.owned[record.reference].execution == Some(record.body.failure)))
  }

  lemma RecordForOk(l: Ledger)
    requires Inv(l) && Sends(NextWork(l)) && l.revision < U64_MAX
    ensures RecordOk(l, RecordFor(l, NextWork(l)))
  {
    WorkIsLive(l);
    var work := NextWork(l);
    if work.SendTarget? { assert TargetOk(l, work.resource); }
  }

  /** The instances of the invariant that a record touches. */
  ghost predicate Touched(l: Ledger, record: Record) {
    && RecordOk(l, record)
    && (record.body.Present? ==> TargetOk(l, record.resource))
    && (record.reference in l.owned ==> RowOk(l, record.reference))
  }

  lemma CommittedRow(l: Ledger, record: Record, reference: nat)
    requires QueuesOk(l) && Touched(l, record)
    requires reference in l.owned ==> RowOk(l, reference)
    requires reference in l.owned || reference == record.reference
    ensures var t := Committed(l, record); reference in t.owned && RowOk(t, reference)
  {
  }

  lemma CommittedTarget(l: Ledger, record: Record, resource: Resource)
    requires Touched(l, record)
    requires resource in l.targets && TargetOk(l, resource)
    ensures var t := Committed(l, record); resource in t.targets && TargetOk(t, resource)
  {
  }

  lemma CommittedQueues(l: Ledger, record: Record)
    requires QueuesOk(l) && Touched(l, record)
    ensures QueuesOk(Committed(l, record))
  {
  }

  lemma CommittedInv(l: Ledger, record: Record, t: Ledger)
    requires Inv(l) && RecordOk(l, record) && t == Committed(l, record)
    ensures Inv(t)
  {
    assert Touched(l, record);
    CommittedQueues(l, record);
    forall reference | reference in t.owned ensures RowOk(t, reference) {
      assert reference in l.owned ==> RowOk(l, reference);
      CommittedRow(l, record, reference);
    }
    forall resource | resource in t.targets ensures TargetOk(t, resource) {
      assert TargetOk(l, resource);
      CommittedTarget(l, record, resource);
    }
  }

  lemma TurnInv(c: Codec, s: State, batch: seq<Record>)
    requires Inv(s.ledger)
    ensures var turn := TurnOf(c, s, batch);
      && (turn.Skip? ==> NextWork(s.ledger).DropDirty? && Inv(turn.state.ledger))
      && (turn.Add? ==> RecordOk(s.ledger, turn.record) && Inv(turn.state.ledger))
  {
    var l := s.ledger;
    var work := NextWork(l);
    if |batch| < MAX_RECORDS && !work.Idle? {
      WorkIsLive(l);
      if !Sends(work) {
        DiscardInv(l);
      } else if l.revision < U64_MAX {
        RecordForOk(l);
        CommittedInv(l, RecordFor(l, work), Committed(l, RecordFor(l, work)));
      }
    }
  }

  lemma {:induction false} ScheduleInv(c: Codec, s: State, batch: seq<Record>)
    requires Inv(s.ledger)
    ensures Inv(Schedule(c, s, batch).state.ledger)
    decreases Pending(s.ledger)
  {
    TurnInv(c, s, batch);
    match TurnOf(c, s, batch)
    case Stop(_) =>
    case Skip(s1) => ScheduleInv(c, s1, batch);
    case Add(s1, record) => ScheduleInv(c, s1, batch + [record]);
  }

  // ---- confirmations

  /** What an accepted confirmation says of revisions. */
  ghost predicate Timely(l: Ledger, reference: nat, state: ConfirmedState) {
    && reference in l.owned
    && state.evaluatedRevision <= l.owned[reference].sentRevision
    && (l.owned[reference].confirmed.Some? ==>
          l.owned[reference].confirmed.value.evaluatedRevision <= state.evaluatedRevision)
    && (state.value.Live? ==> reference <= state.evaluatedRevision)
  }

  lemma SettledRow(l: Ledger, reference: nat, state: ConfirmedState, other: nat)
    requires Timely(l, reference, state) && RowOk(l, reference)
    requires other in l.owned && RowOk(l, other)
    requires l.owned[reference].resource in l.targets ==> TargetOk(l, l.owned[reference].resource)
    requires other == reference ==> state.value.Live?
    ensures var t := Settled(l, reference, state); other in t.owned && RowOk(t, other)
  {
  }

  lemma SettledTargetOk(l: Ledger, reference: nat, state: ConfirmedState, resource: Resource)
    requires Timely(l, reference, state) && RowOk(l, reference)
    requires resource in l.targets && TargetOk(l, resource)
    ensures var t := Settled(l, reference, state); resource in t.targets && TargetOk(t, resource)
  {
  }

  lemma SettledQueues(l: Ledger, reference: nat, state: ConfirmedState)
    requires QueuesOk(l) && reference in l.owned && RowOk(l, reference)
    ensures QueuesOk(Settled(l, reference, state))
  {
  }

  lemma SettledInv(l: Ledger, reference: nat, state: ConfirmedState, t: Ledger)
    requires Inv(l) && Timely(l, reference, state) && t == Settled(l, reference, state)
    ensures Inv(t)
  {
    assert RowOk(l, reference);
    SettledQueues(l, reference, state);
    forall other | other in t.owned ensures RowOk(t, other) {
      assert RowOk(l, other);
      assert l.owned[reference].resource in l.targets ==> TargetOk(l, l.owned[reference].resource);
      SettledRow(l, reference, state, other);
    }
    forall resource | resource in t.targets ensures TargetOk(t, resource) {
      assert TargetOk(l, resource);
      SettledTargetOk(l, reference, state, resource);
    }
  }

  lemma ApplyRecordInv(c: Codec, s: State, record: ServerRecord)
    requires Inv(s.ledger) && ValidServerRecord(record)
    ensures Inv(ApplyRecord(c, s, record).state.ledger)
  {
    if record.OwnedRecord? && record.reference in s.ledger.owned
       && OwnedError(s.ledger, s.catalog, record.reference, record.state).None? {
      SettledInv(s.ledger, record.reference, record.state, Settled(s.ledger, record.reference, record.state));
    }
  }

  lemma {:induction false} ApplyRecordsInv(c: Codec, s: State, records: seq<ServerRecord>)
    requires Inv(s.ledger) && forall record | record in records :: ValidServerRecord(record)
    ensures Inv(ApplyRecords(c, s, records).state.ledger)
    decreases |records|
  {
    if records != [] && !s.terminal {
      ApplyRecordInv(c, s, records[0]);
      ApplyRecordsInv(c, ApplyRecord(c, s, records[0]).state, records[1..]);
    }
  }

  // ---- every run

  lemma StepInv(c: Codec, s: State, event: Event)
    requires Inv(s.ledger)
    requires event.ServerEvent? ==> ValidServerBatch(event.batch)
    ensures Inv(Step(c, s, event).ledger)
  {
    match event
    case StageEvent(resource, spec) =>
      if !Unchanged(s.ledger, resource, spec) {
        StagedInv(s.ledger, resource, spec, Staged(s.ledger, resource, spec));
      }
    case RetryEvent(resource) => RetriedInv(s.ledger, resource);
    case ReportEvent(reference, failure) =>
      if reference in s.ledger.owned && !s.ledger.owned[reference].retiring {
        ReportedInv(s.ledger, reference, failure);
      }
    case FrameEvent => ScheduleInv(c, s, []);
    case ServerEvent(batch) => ApplyRecordsInv(c, s, batch.records);
  }

  lemma {:induction false} RunInv(c: Codec, s: State, events: seq<Event>)
    requires Inv(s.ledger) && Decoded(events)
    ensures Inv(Run(c, s, events).ledger)
    decreases |events|
  {
    if events != [] {
      var last := |events| - 1;
      assert Decoded(events[..last]);
      RunInv(c, s, events[..last]);
      StepInv(c, Run(c, s, events[..last]), events[last]);
    }
  }

  lemma {:induction false} ScheduleStops(c: Codec, s: State, batch: seq<Record>)
    ensures var r := Schedule(c, s, batch); batch <= r.records
    ensures var r := Schedule(c, s, batch);
      r.error.None? && r.records == [] ==>
        r.state.ledger.dirty == {} && r.state.ledger.retiring == {} && r.state.ledger.executions == {}
    decreases Pending(s.ledger)
  {
    match TurnOf(c, s, batch)
    case Stop(_) =>
    case Skip(s1) => ScheduleStops(c, s1, batch);
    case Add(s1, record) => ScheduleStops(c, s1, batch + [record]);
  }

  /** The end of the reference was asked for, and the server has not confirmed it yet. */
  predicate Withdrawn(l: Ledger, reference: nat) {
    reference in l.owned && l.owned[reference].retiring && reference !in l.retiring
  }

  /** Nothing queued, and every wanted resource waits for the server or was declared as wanted. */
  ghost predicate Quiescent(l: Ledger) {
    && l.dirty == {} && l.retiring == {} && l.executions == {}
    && forall resource | resource in l.targets ::
         var target := l.targets[resource];
         || (target.waitingFor.Some? && Withdrawn(l, target.waitingFor.value))
         || target.blocked
         || (target.reference.Some? && target.reference.value in l.owned
             && (l.owned[target.reference.value].AwaitingEvaluation()
                 || SpecsEqual(l.owned[target.reference.value].sent, target.spec)))
  }

  /**
   * No lost work. After any run every wanted resource is tracked, and a frame
   * request that finds nothing to send leaves the client quiescent.
   */
  lemma NoLostWork(c: Codec, memoryLimit: nat, selfParticipant: Participant, events: seq<Event>)
    requires Decoded(events)
    ensures var s := Run(c, Initial(memoryLimit, selfParticipant), events);
      && (forall resource | resource in s.ledger.targets :: Tracked(s.ledger, resource))
      && (!s.terminal && NextFrame(c, s).1.Nothing? ==> Quiescent(NextFrame(c, s).0.ledger))
  {
    InitialInv();
    var s := Run(c, Initial(memoryLimit, selfParticipant), events);
    RunInv(c, Initial(memoryLimit, selfParticipant), events);
    forall resource | resource in s.ledger.targets ensures Tracked(s.ledger, resource) {
      assert TargetOk(s.ledger, resource);
    }
    if !s.terminal && NextFrame(c, s).1.Nothing? {
      ScheduleStops(c, s, []);
      ScheduleInv(c, s, []);
      var t := NextFrame(c, s).0.ledger;
      forall resource | resource in t.targets
        ensures Tracked(t, resource)
        ensures t.targets[resource].waitingFor.Some? ==> Withdrawn(t, t.targets[resource].waitingFor.value)
      {
        assert TargetOk(t, resource);
      }
    }
  }
}
