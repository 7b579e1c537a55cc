/**
 * The reconciliation object itself: one mutable field per field of the client,
 * updated in place, each method proved to take the state where the functions of
 * `Reconciliation` say.
 */
module NativeStates {
  import opened Basics
  import opened Wire
  import opened ResourceOrder
  import opened Reconciliation

  class NativeState {
    const codec: Codec
    const selfParticipant: Participant
    const memoryLimit: nat
    var revision: nat
    var targets: map<Resource, Target>
    var owned: map<nat, Owned>
    var dirty: set<Resource>
    var retiring: set<nat>
    var executions: set<nat>
    var preferExecution: bool
    var retiringResources: map<Resource, nat>
    var cursor: Option<Resource>
    var preferRetirement: bool
    var participants: map<string, Participant>
    var tracks: map<string, Track>
    var sourceReferences: Index
    var participantReferences: Index
    var session: Option<SessionState>
    var initialComplete: bool
    var terminal: bool
    var retainedBytes: nat

    function TheLedger(): Ledger
      reads `revision, `targets, `owned, `dirty, `retiring, `executions, `preferExecution, `retiringResources, `cursor,
            `preferRetirement
    {
      Ledger(revision, targets, owned, dirty, retiring, executions, preferExecution, retiringResources, cursor,
             preferRetirement)
    }

    function TheCatalog(): Catalog
      reads `participants, `tracks, `sourceReferences, `participantReferences
    {
      Catalog(participants, tracks, sourceReferences, participantReferences, selfParticipant)
    }

    function View(): State
      reads this
    {
      State(TheLedger(), TheCatalog(), session, initialComplete, terminal, retainedBytes, memoryLimit)
    }

    constructor (codec: Codec, memoryLimit: nat, selfParticipant: Participant)
      ensures View() == Initial(memoryLimit, selfParticipant) && this.codec == codec
    {
      this.codec := codec;
      this.memoryLimit := memoryLimit;
      this.selfParticipant := selfParticipant;
      revision, targets, owned, dirty, retiring, executions := 0, map[], map[], {}, {}, {};
      preferExecution, retiringResources, cursor, preferRetirement := true, map[], None, true;
      participants, tracks, sourceReferences, participantReferences := map[], map[], map[], map[];
      session, initialComplete, terminal, retainedBytes := None, false, false, 0;
    }

    method Charge(before: nat, after: nat) returns (ok: bool)
      modifies `retainedBytes
      ensures var bytes := Account(old(View()), before, after);
        ok == bytes.Some? && retainedBytes == (if ok then bytes.value else old(retainedBytes))
    {
      ok := before <= retainedBytes && retainedBytes - before + after <= memoryLimit;
      if ok {
        retainedBytes := retainedBytes - before + after;
      }
    }

    method Stage(resource: Resource, spec: Option<ResourceSpec>) returns (error: Option<SignalingError>)
      modifies this
      ensures (View(), error) == Reconciliation.Stage(codec, old(View()), resource, spec)
    {
      if terminal {
        return Some(TerminalSession);
      }
      if spec.Some? {
        if !codec.validSpec(spec.value) { return Some(InvalidSpec); }
        if !MatchesSpec(resource, spec.value) { return Some(ResourceCorrelation); }
        if !codec.encodable(spec.value) { return Some(Encode); }
        if resource in targets && SpecsEqual(targets[resource].spec, spec.value) { return None; }
      }
      error := Admit(resource, spec);
    }

    /** A changed wish: pay for it, end the reference it replaces, and queue it. */
    method Admit(resource: Resource, spec: Option<ResourceSpec>) returns (error: Option<SignalingError>)
      modifies `retainedBytes, `owned, `retiring, `retiringResources, `dirty, `targets
      ensures error == (if StageBytes(codec, old(View()), resource, spec).Some? then None else Some(MemoryBudget))
      ensures error.None? ==> Some(retainedBytes) == StageBytes(codec, old(View()), resource, spec)
      ensures error.None? ==> TheLedger() == Staged(old(TheLedger()), resource, spec)
      ensures error.Some? ==> retainedBytes == old(retainedBytes) && TheLedger() == old(TheLedger())
    {
      var previous := if resource in targets then targets[resource].reference else None;
      var replace := resource in targets && (spec.None? || !DeclarationsEquivalent(targets[resource].spec, spec.value));
      var next, needsSend := PlanTarget(resource, spec, previous, replace);
      var before := if resource in targets then TargetBytes(codec, resource, targets[resource]) else 0;
      var after := if next.Some? then TargetBytes(codec, resource, next.value) else 0;
      var ok := Charge(before, after);
      if !ok {
        return Some(MemoryBudget);
      }
      Install(resource, spec, if replace then previous else None, next, needsSend);
      return None;
    }

    /** The target a wish leads to, with the reference it keeps and the one it waits for. */
    method PlanTarget(resource: Resource, spec: Option<ResourceSpec>, previous: Option<nat>, replace: bool)
      returns (next: Option<Target>, needsSend: bool)
      requires previous == PreviousReference(TheLedger(), resource)
      requires replace == Replaces(TheLedger(), resource, spec)
      ensures next == (if spec.Some? then Some(StagedTarget(TheLedger(), resource, spec.value)) else None)
      ensures needsSend == StagedDirty(TheLedger(), resource, spec)
    {
      if spec.None? {
        return None, false;
      }
      var inRetirement := Lookup(retiringResources, resource);
      var waitingFor := if replace then OrElse(previous, inRetirement) else inRetirement;
      var reference := if replace then None else previous;
      var alreadySent := reference.Some? && reference.value in owned
        && SpecsEqual(owned[reference.value].sent, spec.value);
      var blocked := alreadySent && owned[reference.value].Rejected();
      return Some(Target(spec.value, reference, waitingFor, blocked)), waitingFor.None? && !alreadySent;
    }

    method Install(resource: Resource, spec: Option<ResourceSpec>, ending: Option<nat>, next: Option<Target>,
      needsSend: bool)
      requires ending == Retires(TheLedger(), resource, spec)
      requires next == (if spec.Some? then Some(StagedTarget(TheLedger(), resource, spec.value)) else None)
      requires needsSend == StagedDirty(TheLedger(), resource, spec)
      modifies `owned, `retiring, `retiringResources, `dirty, `targets
      ensures TheLedger() == Staged(old(TheLedger()), resource, spec)
    {
      if ending.Some? {
        if ending.value in owned {
          owned := owned[ending.value := owned[ending.value].(retiring := true)];
        }
        retiring := retiring + {ending.value};
        retiringResources := retiringResources[resource := ending.value];
      }
      if needsSend {
        dirty := dirty + {resource};
      } else {
        dirty := dirty - {resource};
      }
      if next.Some? {
        targets := targets[resource := next.value];
      } else {
        targets := targets - {resource};
      }
    }

    method Retry(resource: Resource)
      modifies `targets, `dirty
      ensures View() == old(View()).(ledger := Retried(old(TheLedger()), resource))
    {
      if resource in targets {
        targets := targets[resource := targets[resource].(blocked := false)];
        if targets[resource].waitingFor.None? {
          dirty := dirty + {resource};
        }
      }
    }

    method ReportExecution(reference: nat, failure: Failure) returns (error: Option<SignalingError>)
      modifies `retainedBytes, `owned, `executions
      ensures (View(), error) == Report(codec, old(View()), reference, failure)
    {
      if reference !in owned || owned[reference].retiring || terminal {
        return None;
      }
      if !AdmittedReceiver(owned[reference]) {
        return Some(NoAdmittedReceiver);
      }
      if !codec.validReport(failure) {
        return Some(InvalidReport);
      }
      var ok := Charge(ReportBytes(codec, owned[reference].execution), codec.reportBytes(failure));
      if !ok {
        return Some(MemoryBudget);
      }
      owned := owned[reference := owned[reference].(execution := Some(failure))];
      executions := executions + {reference};
      return None;
    }

    /** Pays for the record and enters it: the row no longer owes the report, or keeps what was declared. */
    method Commit(record: Record) returns (ok: bool)
      requires HasRow(TheLedger(), record)
      modifies `retainedBytes, `owned, `executions, `revision, `preferExecution, `preferRetirement, `retiring, `cursor,
               `targets, `dirty
      ensures ok == CommitBytes(codec, old(View()), record).Some?
      ensures ok ==> Some(retainedBytes) == CommitBytes(codec, old(View()), record)
      ensures ok ==> TheLedger() == Committed(old(TheLedger()), record)
      ensures !ok ==> retainedBytes == old(retainedBytes) && TheLedger() == old(TheLedger())
    {
      var reference := record.reference;
      if record.body.Execution? {
        ok := Charge(codec.reportBytes(record.body.failure), 0);
        if ok {
          EnterReport(record);
        }
      } else {
        var row := Owned(
          record.resource,
          record.revision,
          if record.body.Present? then record.body.spec else owned[reference].sent,
          if reference in owned then owned[reference].confirmed else None,
          if reference in owned then owned[reference].execution else None,
          record.body.Withdraw?);
        ok := Charge(if reference in owned then OwnedBytes(codec, owned[reference]) else 0, OwnedBytes(codec, row));
        if ok {
          EnterDesired(record, row);
        }
      }
    }

    method EnterReport(record: Record)
      requires record.body.Execution? && record.reference in owned
      modifies `owned, `executions, `revision, `preferExecution
      ensures TheLedger() == Committed(old(TheLedger()), record)
    {
      owned := owned[record.reference := owned[record.reference].(execution := None)];
      executions := executions - {record.reference};
      revision := record.revision;
      preferExecution := false;
    }

    method EnterDesired(record: Record, row: Owned)
      requires !record.body.Execution? && HasRow(TheLedger(), record) && row == RowAfter(TheLedger(), record)
      modifies `owned, `revision, `preferRetirement, `preferExecution, `retiring, `cursor,
               `targets, `dirty
      ensures TheLedger() == Committed(old(TheLedger()), record)
    {
      owned := owned[record.reference := row];
      revision := record.revision;
      preferRetirement := record.body.Present?;
      preferExecution := true;
      if record.body.Withdraw? {
        retiring := retiring - {record.reference};
      } else {
        cursor := Some(record.resource);
        if record.resource in targets {
          targets := targets[record.resource := targets[record.resource].(reference := Some(record.reference))];
        }
        dirty := dirty - {record.resource};
      }
    }
  
    /** Tries to add one record to the batch. */
    method Offer(record: Record, batch: seq<Record>) returns (progress: Progress)
      requires HasRow(TheLedger(), record)
      modifies `retainedBytes, `owned, `executions, `revision, `preferExecution, `preferRetirement, `retiring, `cursor,
               `targets, `dirty
      ensures Follows(OfferOf(codec, old(View()), batch, record), progress, View(), old(View()))
    {
      if revision == U64_MAX {
        return Stopped(Some(RevisionExhaustion));
      }
      if !codec.fits(batch + [record]) {
        return Stopped(if batch == [] then Some(Encode) else None);
      }
      ghost var before := View();
      var ok := Commit(record);
      assert View() == before.(ledger := TheLedger(), retainedBytes := retainedBytes);
      if !ok {
        return Stopped(if record.body.Execution? || batch == [] then Some(MemoryBudget) else None);
      }
      return Added(record);
    }

    /** Chooses between an execution report, a retirement and a dirty resource. */
    method Pick() returns (work: Work)
      ensures work == NextWork(TheLedger())
    {
      var resource := NextAfter(dirty, cursor);
      var retirement :=
        if (preferRetirement || resource.None?) && retiring != {} then Some(Least(retiring)) else None;
      var execution :=
        if retirement.Some? && retirement.value in executions then retirement
        else if executions != {} then Some(Least(executions))
        else None;
      if execution.Some?
         && (preferExecution || (resource.None? && retirement.None?) || retirement == execution) {
        var owes := execution.value in owned && owned[execution.value].execution.Some?;
        return if owes then SendExecution(execution.value) else DropExecution(execution.value);
      }
      if retirement.Some? {
        return if retirement.value in owned then SendRetirement(retirement.value) else DropRetirement(retirement.value);
      }
      if resource.Some? {
        if resource.value !in targets
           || targets[resource.value].blocked
           || (targets[resource.value].reference.Some? && targets[resource.value].reference.value in owned
               && owned[targets[resource.value].reference.value].AwaitingEvaluation()) {
          return DropDirty(resource.value);
        }
        return SendTarget(resource.value);
      }
      return Idle;
    }

    /** Forgets a queue entry that has nothing to send now. */
    method Drop(work: Work)
      modifies `executions, `retiring, `dirty
      ensures TheLedger() == Discard(old(TheLedger()), work)
    {
      if work.DropExecution? {
        executions := executions - {work.reference};
      } else if work.DropRetirement? {
        retiring := retiring - {work.reference};
      } else if work.DropDirty? {
        dirty := dirty - {work.resource};
      }
    }

    /** The record for the chosen work, under the next revision. */
    method Compose(work: Work) returns (record: Record)
      requires Sends(work) && work == NextWork(TheLedger())
      ensures record == RecordFor(TheLedger(), work)
    {
      if work.SendExecution? {
        var row := owned[work.reference];
        return Record(row.resource, work.reference, revision + 1, Execution(row.execution.value));
      }
      if work.SendRetirement? {
        return Record(owned[work.reference].resource, work.reference, revision + 1, Withdraw);
      }
      var target := targets[work.resource];
      var reference := if target.reference.Some? then target.reference.value else revision + 1;
      return Record(work.resource, reference, revision + 1, Present(target.spec));
    }

    /** One turn of the frame loop. */
    method Turn(batch: seq<Record>) returns (progress: Progress)
      requires |batch| < MAX_RECORDS
      modifies `retainedBytes, `owned, `executions, `revision, `preferExecution, `preferRetirement, `retiring, `cursor,
               `targets, `dirty
      ensures Follows(TurnOf(codec, old(View()), batch), progress, View(), old(View()))
    {
      var work := Pick();
      if work.Idle? {
        return Stopped(None);
      }
      if !Sends(work) {
        Drop(work);
        return Skipped;
      }
      var record := Compose(work);
      progress := Offer(record, batch);
    }

    method NextFrame() returns (outcome: Outcome)
      modifies this
      ensures (View(), outcome) == Reconciliation.NextFrame(codec, old(View()))
    {
      if terminal {
        return Nothing;
      }
      ghost var start := View();
      var batch: seq<Record> := [];
      while |batch| < MAX_RECORDS
        invariant !terminal
        invariant Schedule(codec, View(), batch) == Schedule(codec, start, [])
        decreases Pending(TheLedger())
      {
        ghost var s := View();
        var progress := Turn(batch);
        match progress {
          case Added(record) => batch := batch + [record];
          case Skipped =>
          case Stopped(error) =>
            if error.Some? {
              return Failed(error.value);
            }
            break;
        }
      }
      assert TurnOf(codec, View(), batch) == Stop(None);
      if batch == [] {
        return Nothing;
      }
      return if ValidClientBatch(batch) then Frame(batch) else Failed(Encode);
    }
  
    // ---- server batches

    method Live(reference: nat) returns (live: Option<LiveResource>)
      ensures live == LiveAt(TheLedger(), reference)
    {
      if reference in owned && owned[reference].confirmed.Some? && owned[reference].confirmed.value.value.Live? {
        return Some(owned[reference].confirmed.value.value.live);
      }
      return None;
    }

    method FirstLive(index: Index, id: string) returns (live: Option<LiveResource>)
      ensures live == FirstIndexed(TheLedger(), index, id)
    {
      if id !in index || index[id] == {} {
        return None;
      }
      live := Live(Least(index[id]));
    }

    method ValidateSource(live: LiveResource) returns (valid: bool)
      ensures valid == SourceValid(TheLedger(), TheCatalog(), live)
    {
      var participant, track := live.participant, live.track;
      var byParticipant := FirstLive(participantReferences, participant.participantId);
      var bySource := FirstLive(sourceReferences, track.trackId);
      return !(|| (live.spec.declaration.PublicationOf? && participant != selfParticipant)
               || (participant.participantId in participants && participants[participant.participantId] != participant)
               || (track.trackId in tracks && !TracksEqual(tracks[track.trackId], track))
               || (byParticipant.Some? && byParticipant.value.participant != participant)
               || (bySource.Some? && !TracksEqual(bySource.value.track, track)));
    }

    method CheckOwned(reference: nat, state: ConfirmedState) returns (error: Option<SignalingError>)
      requires reference in owned
      ensures error == OwnedError(TheLedger(), TheCatalog(), reference, state)
    {
      var row := owned[reference];
      if state.evaluatedRevision > row.sentRevision
         || (row.confirmed.Some? && state.evaluatedRevision < row.confirmed.value.evaluatedRevision) {
        return Some(EvaluatedRevision);
      }
      if state.value.Live? {
        var valid := ValidateSource(state.value.live);
        if !valid { return Some(SourceIdentity); }
        if !DeclarationsEquivalent(row.sent, state.value.live.spec) { return Some(AcceptedDeclaration); }
        var previous := Live(reference);
        if previous.Some? && (previous.value.participant != state.value.live.participant
                              || !TracksEqual(previous.value.track, state.value.live.track)) {
          return Some(OwnedIdentity);
        }
      }
      return None;
    }

    method Reindex(reference: nat, state: ConfirmedState)
      modifies `sourceReferences, `participantReferences
      ensures TheCatalog() == Reindexed(TheLedger(), old(TheCatalog()), reference, state)
    {
      var previous := Live(reference);
      if state.value.Absent? && previous.Some? {
        sourceReferences := RemoveReference(sourceReferences, previous.value.track.trackId, reference);
        participantReferences :=
          RemoveReference(participantReferences, previous.value.participant.participantId, reference);
      } else if state.value.Live? && previous.None? {
        sourceReferences := AddReference(sourceReferences, state.value.live.track.trackId, reference);
        participantReferences :=
          AddReference(participantReferences, state.value.live.participant.participantId, reference);
      }
    }

    /** Moves the row's target and its place in the queue. */
    method SettleTarget(reference: nat, state: ConfirmedState)
      requires reference in owned
      modifies `targets, `dirty
      ensures var row := owned[reference];
        targets == (if row.resource in old(targets)
                    then old(targets)[row.resource := SettledTarget(row, old(targets)[row.resource], reference, state)]
                    else old(targets))
      ensures dirty == SettledDirty(old(TheLedger()), owned[reference], reference, state)
    {
      var row := owned[reference];
      var resource := row.resource;
      if resource !in targets {
        return;
      }
      var target := targets[resource];
      assert targets[resource := target] == targets;
      if state.value.Absent? && target.waitingFor == Some(reference) {
        targets := targets[resource := target.(waitingFor := None)];
        dirty := dirty + {resource};
      } else if target.reference == Some(reference) {
        if state.value.Absent? {
          targets := targets[resource := target.(reference := None, blocked := true)];
          dirty := dirty - {resource};
        } else if state.rejection.Some? && state.evaluatedRevision == row.sentRevision
                  && SpecsEqual(row.sent, target.spec) {
          targets := targets[resource := target.(blocked := true)];
          dirty := dirty - {resource};
        } else if !row.retiring && row.sentRevision <= state.evaluatedRevision
                  && target.waitingFor.None? && !target.blocked && !SpecsEqual(row.sent, target.spec) {
          dirty := dirty + {resource};
        }
      }
    }

    method Settle(reference: nat, state: ConfirmedState)
      requires reference in owned
      modifies `targets, `dirty, `owned, `retiring, `executions, `retiringResources
      ensures TheLedger() == Settled(old(TheLedger()), reference, state)
    {
      var resource := owned[reference].resource;
      SettleTarget(reference, state);
      if state.value.Absent? {
        owned := owned - {reference};
        retiring := retiring - {reference};
        executions := executions - {reference};
        if Lookup(retiringResources, resource) == Some(reference) {
          retiringResources := retiringResources - {resource};
        }
      } else {
        owned := owned[reference := owned[reference].(confirmed := Some(state))];
      }
    }

    /** What the rest of the client is told about the confirmation. */
    method Describe(reference: nat, state: ConfirmedState) returns (change: Change)
      requires reference in owned
      ensures change == OwnedChangeOf(TheLedger(), reference, state)
    {
      var row := owned[reference];
      var previous := Live(reference);
      var retiredBinding :=
        if state.value.Absent? && previous.Some? && row.resource.Reception?
           && previous.value.spec.declaration.SubscriptionTo?
        then Some(previous.value.spec.declaration.binding) else None;
      return OwnedChange(row.resource, reference, retiredBinding, state,
                         row.confirmed.None? || row.confirmed.value.evaluatedRevision != state.evaluatedRevision);
    }

    /** Moves the confirmation into indexes, targets, rows and queues. */
    method Take(reference: nat, state: ConfirmedState)
      requires reference in owned
      modifies `sourceReferences, `participantReferences, `targets, `dirty, `owned, `retiring, `executions,
               `retiringResources
      ensures TheCatalog() == Reindexed(old(TheLedger()), old(TheCatalog()), reference, state)
      ensures TheLedger() == Settled(old(TheLedger()), reference, state)
    {
      Reindex(reference, state);
      assert TheLedger() == old(TheLedger());
      ghost var catalog := TheCatalog();
      Settle(reference, state);
      assert TheCatalog() == catalog;
    }

    /** Takes the confirmation over if the budget allows it. */
    method Confirm(reference: nat, state: ConfirmedState) returns (ok: bool)
      requires reference in owned
      modifies `retainedBytes, `sourceReferences, `participantReferences, `targets, `dirty, `owned, `retiring,
               `executions, `retiringResources
      ensures ok == ConfirmBytes(codec, old(View()), reference, state).Some?
      ensures ok ==> Some(retainedBytes) == ConfirmBytes(codec, old(View()), reference, state)
      ensures ok ==> TheCatalog() == Reindexed(old(TheLedger()), old(TheCatalog()), reference, state)
      ensures ok ==> TheLedger() == Settled(old(TheLedger()), reference, state)
      ensures !ok ==> TheCatalog() == old(TheCatalog()) && TheLedger() == old(TheLedger())
      ensures !ok ==> retainedBytes == old(retainedBytes)
    {
      var row := owned[reference];
      var held := OwnedBytes(codec, row);
      ok := Charge(held, if state.value.Absent? then 0
                         else held - ConfirmedBytes(codec, row.confirmed) + codec.confirmedBytes(state));
      assert TheLedger() == old(TheLedger()) && TheCatalog() == old(TheCatalog());
      if ok {
        Take(reference, state);
      }
    }

    method ApplyOwned(reference: nat, state: ConfirmedState)
      returns (changes: seq<Change>, error: Option<SignalingError>)
      modifies this
      ensures Applied(View(), changes, error) == Reconciliation.ApplyOwned(codec, old(View()), reference, state)
    {
      if reference !in owned {
        return [], if reference <= revision && state.value.Absent? then None else Some(UnknownReference);
      }
      error := CheckOwned(reference, state);
      if error.Some? {
        return [], error;
      }
      if owned[reference].confirmed == Some(state) {
        return [], None;
      }
      var change := Describe(reference, state);
      ghost var before := View();
      var ok := Confirm(reference, state);
      assert View() == before.(ledger := TheLedger(), catalog := TheCatalog(), retainedBytes := retainedBytes);
      if !ok {
        return [], Some(MemoryBudget);
      }
      return [change], None;
    }

    method ApplySession(next: SessionState) returns (changes: seq<Change>, error: Option<SignalingError>)
      modifies `session, `terminal, `retainedBytes
      ensures Applied(View(), changes, error) == Reconciliation.ApplySession(codec, old(View()), next)
    {
      if session.Some? && session.value.authorization.Some? && next.authorization.Some?
         && (next.authorization.value.revision < session.value.authorization.value.revision
             || (next.authorization.value.revision == session.value.authorization.value.revision
                 && next.authorization != session.value.authorization)) {
        return [], Some(AuthorizationRevision);
      }
      if session == Some(next) {
        return [], None;
      }
      var ok := Charge(if session.Some? then codec.sessionBytes(session.value) else 0, codec.sessionBytes(next));
      if !ok {
        return [], Some(MemoryBudget);
      }
      terminal := next.closed;
      session := Some(next);
      return [SessionChange], None;
    }

    method ApplyParticipant(id: string, next: Option<Participant>)
      returns (changes: seq<Change>, error: Option<SignalingError>)
      modifies `participants, `retainedBytes
      ensures Applied(View(), changes, error) == Reconciliation.ApplyParticipant(codec, old(View()), id, next)
    {
      var known := FirstLive(participantReferences, id);
      if next.Some?
         && ((id in participants && participants[id] != next.value)
             || (next.value.participantId == selfParticipant.participantId && next.value != selfParticipant)
             || (known.Some? && known.value.participant != next.value)) {
        return [], Some(ParticipantIdentity);
      }
      if Lookup(participants, id) == next {
        return [], None;
      }
      ghost var before := View();
      var ok := Charge(if id in participants then codec.participantBytes(id, participants[id]) else 0,
                       if next.Some? then codec.participantBytes(id, next.value) else 0);
      if !ok {
        return [], Some(MemoryBudget);
      }
      if next.Some? {
        participants := participants[id := next.value];
      } else {
        participants := participants - {id};
      }
      assert View() == before.(catalog := TheCatalog(), retainedBytes := retainedBytes);
      return [ParticipantChange(id)], None;
    }

    method ApplyTrack(id: string, next: Option<Track>) returns (changes: seq<Change>, error: Option<SignalingError>)
      modifies `tracks, `retainedBytes
      ensures Applied(View(), changes, error) == Reconciliation.ApplyTrack(codec, old(View()), id, next)
    {
      var known := FirstLive(sourceReferences, id);
      if next.Some?
         && ((id in tracks && !TracksEqual(tracks[id], next.value))
             || (known.Some? && !TracksEqual(known.value.track, next.value))) {
        return [], Some(TrackIdentity);
      }
      if Lookup(tracks, id) == next {
        return [], None;
      }
      ghost var before := View();
      var ok := Charge(if id in tracks then codec.trackBytes(id, tracks[id]) else 0,
                       if next.Some? then codec.trackBytes(id, next.value) else 0);
      if !ok {
        return [], Some(MemoryBudget);
      }
      if next.Some? {
        tracks := tracks[id := next.value];
      } else {
        tracks := tracks - {id};
      }
      assert View() == before.(catalog := TheCatalog(), retainedBytes := retainedBytes);
      return [TrackChange(id)], None;
    }

    method ApplyRecord(record: ServerRecord) returns (changes: seq<Change>, error: Option<SignalingError>)
      modifies this
      ensures Applied(View(), changes, error) == Reconciliation.ApplyRecord(codec, old(View()), record)
    {
      match record {
        case OwnedRecord(reference, state) => changes, error := ApplyOwned(reference, state);
        case SessionRecord(next) => changes, error := ApplySession(next);
        case ParticipantRecord(id, next) => changes, error := ApplyParticipant(id, next);
        case TrackRecord(id, next) => changes, error := ApplyTrack(id, next);
      }
    }

    /** The records in order, up to the first error or to the end of the session. */
    method ApplyAll(records: seq<ServerRecord>) returns (changes: seq<Change>, error: Option<SignalingError>)
      modifies this
      ensures Applied(View(), changes, error) == ApplyRecords(codec, old(View()), records)
    {
      ghost var start := View();
      changes := [];
      var i := 0;
      while i < |records| && !terminal
        invariant i <= |records|
        invariant ApplyRecords(codec, start, records) == After(changes, ApplyRecords(codec, View(), records[i..]))
      {
        ghost var s, rest := View(), records[i..];
        assert rest[0] == records[i] && rest[1..] == records[i + 1..];
        var more, failed := ApplyRecord(records[i]);
        if failed.Some? {
          return changes + more, failed;
        }
        AfterTwice(changes, more, ApplyRecords(codec, View(), rest[1..]));
        changes := changes + more;
        i := i + 1;
      }
      assert changes + [] == changes;
      return changes, None;
    }

    method Apply(batch: ServerBatch) returns (changes: seq<Change>, error: Option<SignalingError>)
      modifies this
      ensures Applied(View(), changes, error) == Reconciliation.Apply(codec, old(View()), batch)
    {
      if terminal {
        return [], None;
      }
      changes, error := ApplyAll(batch.records);
      if error.None? && batch.initialComplete && !terminal {
        if initialComplete {
          return changes, Some(RepeatedInitialCompletion);
        }
        initialComplete := true;
        changes := changes + [InitialComplete];
      }
    }
  }

  function After(changes: seq<Change>, rest: Applied): Applied {
    Applied(rest.state, changes + rest.changes, rest.error)
  }

  lemma AfterTwice(first: seq<Change>, second: seq<Change>, rest: Applied)
    ensures After(first, After(second, rest)) == After(first + second, rest)
  {
    assert first + (second + rest.changes) == (first + second) + rest.changes;
  }

  datatype Progress = Stopped(error: Option<SignalingError>) | Skipped | Added(record: Record)

  /** The object did what the turn says. */
  ghost predicate Follows(turn: Turn, progress: Progress, s: State, before: State) {
    match turn
    case Stop(error) => progress == Stopped(error) && s == before
    case Skip(s1) => progress == Skipped && s == s1
    case Add(s1, record) => progress == Added(record) && s == s1
  }
}
