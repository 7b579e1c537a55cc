/**
 * Frames always encode, draining terminates, and two rounds of draining and
 * answering make every wanted resource converge or stand refused.
 */
module Convergence {
  import opened Basics
  import opened Wire
  import opened ResourceOrder
  import opened Reconciliation
  import opened ReconciliationInvariants

  // ---- frames always encode

  ghost predicate TargetsEncodable(c: Codec, l: Ledger) {
    forall resource | resource in l.targets :: c.encodable(l.targets[resource].spec)
  }

  /** A batch as the loop builds it: valid records under consecutive revisions up to the current one. */
  ghost predicate BatchOk(batch: seq<Record>, revision: nat) {
    && |batch| <= MAX_RECORDS
    && (forall i | 0 <= i < |batch| ::
          ValidClientRecord(batch[i]) && batch[i].revision + (|batch| - 1 - i) == revision)
  }

  lemma {:induction false} ScheduleEncodes(c: Codec, s: State, batch: seq<Record>)
    requires Inv(s.ledger) && TargetsEncodable(c, s.ledger) && SingleRecordsFit(c)
    requires BatchOk(batch, s.ledger.revision)
    ensures var r := Schedule(c, s, batch);
      && BatchOk(r.records, r.state.ledger.revision)
      && r.error != Some(Encode)
      && TargetsEncodable(c, r.state.ledger)
    decreases Pending(s.ledger)
  {
    TurnShape(c, s, batch);
    TurnInv(c, s, batch);
    match TurnOf(c, s, batch)
    case Stop(error) =>
      if batch == [] && Sends(NextWork(s.ledger)) {
        assert c.fits([RecordFor(s.ledger, NextWork(s.ledger))]);
        assert batch + [RecordFor(s.ledger, NextWork(s.ledger))] == [RecordFor(s.ledger, NextWork(s.ledger))];
      }
    case Skip(s1) => ScheduleEncodes(c, s1, batch);
    case Add(s1, record) =>
      AddedIsValid(s.ledger, batch, record);
      assert TargetsEncodable(c, s1.ledger);
      ScheduleEncodes(c, s1, batch + [record]);
  }

  lemma AddedIsValid(l: Ledger, batch: seq<Record>, record: Record)
    requires Inv(l) && RecordOk(l, record) && BatchOk(batch, l.revision) && |batch| < MAX_RECORDS
    ensures BatchOk(batch + [record], record.revision)
  {
    assert Touched(l, record);
  }

  lemma {:induction false} RunEncodable(c: Codec, s: State, events: seq<Event>)
    requires Inv(s.ledger) && TargetsEncodable(c, s.ledger) && SingleRecordsFit(c) && Decoded(events)
    ensures TargetsEncodable(c, Run(c, s, events).ledger)
    decreases |events|
  {
    if events != [] {
      var last := |events| - 1;
      assert Decoded(events[..last]);
      RunEncodable(c, s, events[..last]);
      RunInv(c, s, events[..last]);
      StepEncodable(c, Run(c, s, events[..last]), events[last]);
    }
  }

  lemma StepEncodable(c: Codec, s: State, event: Event)
    requires Inv(s.ledger) && TargetsEncodable(c, s.ledger) && SingleRecordsFit(c)
    ensures TargetsEncodable(c, Step(c, s, event).ledger)
  {
    if event.FrameEvent? {
      ScheduleEncodes(c, s, []);
    } else if event.ServerEvent? {
      RecordsEncodable(c, s, event.batch.records);
    }
  }

  lemma {:induction false} RecordsEncodable(c: Codec, s: State, records: seq<ServerRecord>)
    requires TargetsEncodable(c, s.ledger)
    ensures TargetsEncodable(c, ApplyRecords(c, s, records).state.ledger)
    decreases |records|
  {
    if records != [] && !s.terminal {
      RecordsEncodable(c, ApplyRecord(c, s, records[0]).state, records[1..]);
    }
  }

  /**
   * After every run the next frame is valid for the codec: only revision
   * exhaustion or the memory budget can make the request fail.
   */
  lemma FramesAlwaysEncode(c: Codec, memoryLimit: nat, selfParticipant: Participant, events: seq<Event>)
    requires Decoded(events) && SingleRecordsFit(c)
    ensures var s := Run(c, Initial(memoryLimit, selfParticipant), events);
      NextFrame(c, s).1 != Failed(Encode)
  {
    InitialInv();
    var start := Initial(memoryLimit, selfParticipant);
    RunInv(c, start, events);
    RunEncodable(c, start, events);
    ScheduleEncodes(c, Run(c, start, events), []);
  }

  // ---- draining terminates

  lemma {:induction false} ScheduleShrinks(c: Codec, s: State, batch: seq<Record>)
    ensures var r := Schedule(c, s, batch);
      Pending(r.state.ledger) <= Pending(s.ledger)
      && (|r.records| > |batch| ==> Pending(r.state.ledger) < Pending(s.ledger))
    decreases Pending(s.ledger)
  {
    match TurnOf(c, s, batch)
    case Stop(_) =>
    case Skip(s1) => ScheduleShrinks(c, s1, batch);
    case Add(s1, record) => ScheduleShrinks(c, s1, batch + [record]);
  }

  /** Every frame leaves strictly less to send, so asking for frames comes to an end. */
  lemma FrameShrinks(c: Codec, s: State)
    requires NextFrame(c, s).1.Frame?
    ensures Pending(NextFrame(c, s).0.ledger) < Pending(s.ledger)
  {
    ScheduleShrinks(c, s, []);
  }

  // ---- refusals stand

  /** A target whose current declaration the server refused is blocked, unless a retry has queued it again. */
  ghost predicate RefusalStands(l: Ledger, resource: Resource)
    requires resource in l.targets
  {
    var target := l.targets[resource];
    target.reference.Some? && target.reference.value in l.owned
    && l.owned[target.reference.value].Rejected() && SpecsEqual(l.owned[target.reference.value].sent, target.spec)
    ==> target.blocked || resource in l.dirty
  }

  ghost predicate RefusalsStand(l: Ledger) {
    forall resource {:trigger RefusalStands(l, resource)} | resource in l.targets :: RefusalStands(l, resource)
  }

  lemma StagedRefusals(l: Ledger, resource: Resource, spec: Option<ResourceSpec>)
    requires Inv(l) && RefusalsStand(l)
    ensures RefusalsStand(Staged(l, resource, spec))
  {
    var t := Staged(l, resource, spec);
    assert resource in l.targets ==> TargetOk(l, resource);
    forall other | other in t.targets ensures RefusalStands(t, other) {
      if other != resource { assert RefusalStands(l, other) && TargetOk(l, other); }
    }
  }

  lemma RetriedRefusals(l: Ledger, resource: Resource)
    requires Inv(l) && RefusalsStand(l)
    ensures RefusalsStand(Retried(l, resource))
  {
    var t := Retried(l, resource);
    forall other | other in t.targets ensures RefusalStands(t, other) {
      assert RefusalStands(l, other) && TargetOk(l, other);
    }
  }

  lemma ReportedRefusals(l: Ledger, reference: nat, failure: Failure)
    requires RefusalsStand(l) && reference in l.owned
    ensures RefusalsStand(Reported(l, reference, failure))
  {
    var t := Reported(l, reference, failure);
    forall other | other in t.targets ensures RefusalStands(t, other) { assert RefusalStands(l, other); }
  }

  lemma DiscardRefusals(l: Ledger)
    requires Inv(l) && RefusalsStand(l) && NextWork(l).DropDirty?
    ensures RefusalsStand(Discard(l, NextWork(l)))
  {
    WorkIsLive(l);
    var t := Discard(l, NextWork(l));
    forall other | other in t.targets ensures RefusalStands(t, other) { assert RefusalStands(l, other); }
  }

  lemma CommittedRefusals(l: Ledger, record: Record)
    requires Inv(l) && RefusalsStand(l) && RecordOk(l, record)
    ensures RefusalsStand(Committed(l, record))
  {
    var t := Committed(l, record);
    assert Touched(l, record);
    forall other | other in t.targets ensures RefusalStands(t, other) {
      assert RefusalStands(l, other) && TargetOk(l, other);
    }
  }

  lemma SettledRefusals(l: Ledger, reference: nat, state: ConfirmedState)
    requires Inv(l) && RefusalsStand(l) && Timely(l, reference, state)
    ensures RefusalsStand(Settled(l, reference, state))
  {
    var t := Settled(l, reference, state);
    assert RowOk(l, reference);
    forall other | other in t.targets ensures RefusalStands(t, other) {
      assert RefusalStands(l, other) && TargetOk(l, other);
    }
  }

  lemma {:induction false} ScheduleRefusals(c: Codec, s: State, batch: seq<Record>)
    requires Inv(s.ledger) && RefusalsStand(s.ledger)
    ensures RefusalsStand(Schedule(c, s, batch).state.ledger)
    decreases Pending(s.ledger)
  {
    TurnShape(c, s, batch);
    TurnInv(c, s, batch);
    match TurnOf(c, s, batch)
    case Stop(_) =>
    case Skip(s1) =>
      DiscardRefusals(s.ledger);
      ScheduleRefusals(c, s1, batch);
    case Add(s1, record) =>
      CommittedRefusals(s.ledger, record);
      ScheduleRefusals(c, s1, batch + [record]);
  }

  lemma {:induction false} RecordsRefusals(c: Codec, s: State, records: seq<ServerRecord>)
    requires Inv(s.ledger) && RefusalsStand(s.ledger)
    requires forall record | record in records :: ValidServerRecord(record)
    ensures RefusalsStand(ApplyRecords(c, s, records).state.ledger)
    decreases |records|
  {
    if records != [] && !s.terminal {
      var record := records[0];
      assert ValidServerRecord(record);
      if record.OwnedRecord? && record.reference in s.ledger.owned
         && OwnedError(s.ledger, s.catalog, record.reference, record.state).None? {
        SettledRefusals(s.ledger, record.reference, record.state);
      }
      ApplyRecordInv(c, s, record);
      RecordsRefusals(c, ApplyRecord(c, s, record).state, records[1..]);
    }
  }

  lemma StepRefusals(c: Codec, s: State, event: Event)
    requires Inv(s.ledger) && RefusalsStand(s.ledger)
    requires event.ServerEvent? ==> ValidServerBatch(event.batch)
    ensures RefusalsStand(Step(c, s, event).ledger)
  {
    match event
    case StageEvent(resource, spec) => StagedRefusals(s.ledger, resource, spec);
    case RetryEvent(resource) => RetriedRefusals(s.ledger, resource);
    case ReportEvent(reference, failure) =>
      if reference in s.ledger.owned { ReportedRefusals(s.ledger, reference, failure); }
    case FrameEvent => ScheduleRefusals(c, s, []);
    case ServerEvent(batch) => RecordsRefusals(c, s, batch.records);
  }

  /** After every run a refused declaration that is still wanted is blocked or queued by a retry. */
  lemma {:induction false} RunRefusals(c: Codec, s: State, events: seq<Event>)
    requires Inv(s.ledger) && RefusalsStand(s.ledger) && Decoded(events)
    ensures Inv(Run(c, s, events).ledger) && RefusalsStand(Run(c, s, events).ledger)
    decreases |events|
  {
    if events != [] {
      var last := |events| - 1;
      assert Decoded(events[..last]);
      RunRefusals(c, s, events[..last]);
      StepInv(c, Run(c, s, events[..last]), events[last]);
      StepRefusals(c, Run(c, s, events[..last]), events[last]);
    }
  }

  // ---- two rounds converge

  /** `converged`: the server evaluated what was sent, accepted it, and it is what is wanted. */
  predicate Converged(l: Ledger, resource: Resource) {
    && resource in l.targets
    && l.targets[resource].reference.Some?
    && l.targets[resource].reference.value in l.owned
    && var row := l.owned[l.targets[resource].reference.value];
    && row.confirmed.Some?
    && row.sentRevision <= row.confirmed.value.evaluatedRevision
    && row.confirmed.value.rejection.None?
    && row.confirmed.value.value.Live?
    && SpecsEqual(row.confirmed.value.value.live.spec, l.targets[resource].spec)
  }

  /** The server owes no answer: everything sent was evaluated and every withdrawal confirmed. */
  ghost predicate Answered(l: Ledger) {
    forall reference | reference in l.owned ::
      !l.owned[reference].AwaitingEvaluation() && !Withdrawn(l, reference)
  }

  /** What the server accepted it also runs; what it refused it may keep running as it was. */
  ghost predicate RunsWhatItAccepted(l: Ledger) {
    forall reference | reference in l.owned ::
      var row := l.owned[reference];
      row.confirmed.Some? && row.confirmed.value.rejection.None? && row.confirmed.value.value.Live?
        && row.sentRevision <= row.confirmed.value.evaluatedRevision
      ==> SpecsEqual(row.confirmed.value.value.live.spec, row.sent)
  }

  ghost predicate SentAsWanted(l: Ledger, resource: Resource)
    requires resource in l.targets
  {
    var target := l.targets[resource];
    target.reference.Some? && target.reference.value in l.owned
    && SpecsEqual(l.owned[target.reference.value].sent, target.spec)
  }

  /** Nothing retires, and what is not blocked is queued, ready to be sent, or was sent as wanted. */
  ghost predicate Current(l: Ledger) {
    && l.retiring == {} && l.retiringResources == map[]
    && forall resource | resource in l.targets ::
         var target := l.targets[resource];
         || target.blocked
         || (resource in l.dirty && !Deferred(l, target))
         || SentAsWanted(l, resource)
  }

  lemma AnsweredIsCurrent(l: Ledger)
    requires Inv(l) && l.retiring == {} && Answered(l)
    ensures Current(l)
  {
    if resource :| resource in l.retiringResources {
      assert false;
    }
    forall resource | resource in l.targets
      ensures var target := l.targets[resource];
        || target.blocked
        || (resource in l.dirty && !Deferred(l, target))
        || SentAsWanted(l, resource)
    {
      assert TargetOk(l, resource);
    }
  }

  lemma CommittedCurrent(l: Ledger, record: Record)
    requires Inv(l) && Current(l) && RecordOk(l, record)
    ensures Current(Committed(l, record))
  {
    var t := Committed(l, record);
    assert Touched(l, record);
    forall resource | resource in t.targets
      ensures var target := t.targets[resource];
        || target.blocked
        || (resource in t.dirty && !Deferred(t, target))
        || SentAsWanted(t, resource)
    {
      assert TargetOk(l, resource);
    }
  }

  lemma DiscardCurrent(l: Ledger)
    requires Inv(l) && Current(l) && NextWork(l).DropDirty?
    ensures Current(Discard(l, NextWork(l)))
  {
    WorkIsLive(l);
    var t := Discard(l, NextWork(l));
    forall resource | resource in t.targets
      ensures var target := t.targets[resource];
        || target.blocked
        || (resource in t.dirty && !Deferred(t, target))
        || SentAsWanted(t, resource)
    {
      assert Deferred(t, t.targets[resource]) == Deferred(l, l.targets[resource]);
    }
  }

  lemma {:induction false} ScheduleCurrent(c: Codec, s: State, batch: seq<Record>)
    requires Inv(s.ledger) && Current(s.ledger)
    ensures Current(Schedule(c, s, batch).state.ledger)
    decreases Pending(s.ledger)
  {
    TurnShape(c, s, batch);
    TurnInv(c, s, batch);
    match TurnOf(c, s, batch)
    case Stop(_) =>
    case Skip(s1) =>
      DiscardCurrent(s.ledger);
      ScheduleCurrent(c, s1, batch);
    case Add(s1, record) =>
      CommittedCurrent(s.ledger, record);
      ScheduleCurrent(c, s1, batch + [record]);
  }

  /** Nothing retires and nothing is queued: what is not blocked was sent as wanted. */
  ghost predicate Delivered(l: Ledger) {
    && l.dirty == {} && l.retiring == {} && l.retiringResources == map[]
    && forall resource | resource in l.targets :: l.targets[resource].blocked || SentAsWanted(l, resource)
  }

  lemma SettledDelivered(l: Ledger, reference: nat, state: ConfirmedState)
    requires Inv(l) && Delivered(l) && Timely(l, reference, state)
    ensures Delivered(Settled(l, reference, state))
  {
    var t := Settled(l, reference, state);
    assert RowOk(l, reference);
    assert l.owned[reference].resource in l.targets ==> TargetOk(l, l.owned[reference].resource);
    forall resource | resource in t.targets ensures t.targets[resource].blocked || SentAsWanted(t, resource) {
      assert TargetOk(l, resource);
    }
  }

  lemma {:induction false} RecordsDelivered(c: Codec, s: State, records: seq<ServerRecord>)
    requires Inv(s.ledger) && Delivered(s.ledger) && forall record | record in records :: ValidServerRecord(record)
    ensures Delivered(ApplyRecords(c, s, records).state.ledger)
    decreases |records|
  {
    if records != [] && !s.terminal {
      var record := records[0];
      assert ValidServerRecord(record);
      if record.OwnedRecord? && record.reference in s.ledger.owned
         && OwnedError(s.ledger, s.catalog, record.reference, record.state).None? {
        SettledDelivered(s.ledger, record.reference, record.state);
      }
      ApplyRecordInv(c, s, record);
      RecordsDelivered(c, ApplyRecord(c, s, record).state, records[1..]);
    }
  }

  lemma {:induction false} RecordsKeepRetiringEmpty(c: Codec, s: State, records: seq<ServerRecord>)
    requires s.ledger.retiring == {}
    ensures ApplyRecords(c, s, records).state.ledger.retiring == {}
    decreases |records|
  {
    if records != [] && !s.terminal {
      RecordsKeepRetiringEmpty(c, ApplyRecord(c, s, records[0]).state, records[1..]);
    }
  }

  ghost predicate OnlyFrames(events: seq<Event>) {
    forall event | event in events :: event.FrameEvent?
  }

  ghost predicate OnlyAnswers(events: seq<Event>) {
    forall event | event in events :: event.ServerEvent? && ValidServerBatch(event.batch)
  }

  lemma {:induction false} FramesKeepCurrent(c: Codec, s: State, events: seq<Event>)
    requires Inv(s.ledger) && Current(s.ledger) && OnlyFrames(events)
    ensures Inv(Run(c, s, events).ledger) && Current(Run(c, s, events).ledger)
    decreases |events|
  {
    if events != [] {
      var last := |events| - 1;
      FramesKeepCurrent(c, s, events[..last]);
      ScheduleInv(c, Run(c, s, events[..last]), []);
      ScheduleCurrent(c, Run(c, s, events[..last]), []);
    }
  }

  lemma {:induction false} AnswersKeepDelivered(c: Codec, s: State, events: seq<Event>)
    requires Inv(s.ledger) && Delivered(s.ledger) && OnlyAnswers(events)
    ensures Inv(Run(c, s, events).ledger) && Delivered(Run(c, s, events).ledger)
    decreases |events|
  {
    if events != [] {
      var last := |events| - 1;
      AnswersKeepDelivered(c, s, events[..last]);
      StepInv(c, Run(c, s, events[..last]), events[last]);
      RecordsDelivered(c, Run(c, s, events[..last]), events[last].batch.records);
    }
  }

  lemma {:induction false} AnswersKeepRetiringEmpty(c: Codec, s: State, events: seq<Event>)
    requires Inv(s.ledger) && s.ledger.retiring == {} && OnlyAnswers(events)
    ensures Inv(Run(c, s, events).ledger) && Run(c, s, events).ledger.retiring == {}
    decreases |events|
  {
    if events != [] {
      var last := |events| - 1;
      AnswersKeepRetiringEmpty(c, s, events[..last]);
      StepInv(c, Run(c, s, events[..last]), events[last]);
      RecordsKeepRetiringEmpty(c, Run(c, s, events[..last]), events[last].batch.records);
    }
  }

  /** Delivered, answered and with every refusal standing: what is not blocked is converged. */
  lemma DeliveredConverges(l: Ledger, resource: Resource)
    requires Inv(l) && RefusalsStand(l) && Delivered(l) && Answered(l) && RunsWhatItAccepted(l)
    requires resource in l.targets && !l.targets[resource].blocked
    ensures Converged(l, resource)
  {
    assert SentAsWanted(l, resource) && RefusalStands(l, resource);
    assert RowOk(l, l.targets[resource].reference.value);
  }

  lemma RoundsConverge(c: Codec, s: State, answers: seq<Event>, frames: seq<Event>, answers': seq<Event>, l: Ledger)
    requires Inv(s.ledger) && RefusalsStand(s.ledger) && Quiescent(s.ledger)
    requires OnlyAnswers(answers) && OnlyFrames(frames) && OnlyAnswers(answers')
    requires Answered(Run(c, s, answers).ledger)
    requires Quiescent(Run(c, Run(c, s, answers), frames).ledger)
    requires l == Run(c, Run(c, Run(c, s, answers), frames), answers').ledger && Answered(l) && RunsWhatItAccepted(l)
    ensures forall resource | resource in l.targets :: l.targets[resource].blocked || Converged(l, resource)
  {
    var s1 := Run(c, s, answers);
    RunRefusals(c, s, answers);
    AnswersKeepRetiringEmpty(c, s, answers);
    AnsweredIsCurrent(s1.ledger);
    var s2 := Run(c, s1, frames);
    RunRefusals(c, s1, frames);
    FramesKeepCurrent(c, s1, frames);
    RunRefusals(c, s2, answers');
    AnswersKeepDelivered(c, s2, answers');
    forall resource | resource in l.targets && !l.targets[resource].blocked ensures Converged(l, resource) {
      DeliveredConverges(l, resource);
    }
  }

  /**
   * Two rounds. After any run that left nothing to send, let the server answer
   * everything, drain the frames that follow, and let the server answer those:
   * every wanted resource is then converged, or blocked until a retry. The server
   * may refuse or end whatever it likes in both rounds; all it owes is an answer
   * to everything and to run what it accepted.
   */
  lemma TwoRoundsConverge(c: Codec, memoryLimit: nat, selfParticipant: Participant, before: seq<Event>, s: State,
                          answers: seq<Event>, frames: seq<Event>, answers': seq<Event>, l: Ledger)
    requires Decoded(before) && s == Run(c, Initial(memoryLimit, selfParticipant), before) && Quiescent(s.ledger)
    requires OnlyAnswers(answers) && OnlyFrames(frames) && OnlyAnswers(answers')
    requires Answered(Run(c, s, answers).ledger)
    requires Quiescent(Run(c, Run(c, s, answers), frames).ledger)
    requires l == Run(c, Run(c, Run(c, s, answers), frames), answers').ledger && Answered(l) && RunsWhatItAccepted(l)
    ensures forall resource | resource in l.targets :: l.targets[resource].blocked || Converged(l, resource)
  {
    InitialInv();
    RunRefusals(c, Initial(memoryLimit, selfParticipant), before);
    RoundsConverge(c, s, answers, frames, answers', l);
  }
}
