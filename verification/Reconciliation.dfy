/**
 * Desired/confirmed reconciliation as total functions on a state value. Every
 * branch of the client is kept, including the defensive ones that
 * `ReconciliationInvariants` shows to be dead in reachable states.
 */
module Reconciliation {
  import opened Basics
  import opened Wire
  import opened ResourceOrder

  datatype Target =
    Target(spec: ResourceSpec, reference: Option<nat>, waitingFor: Option<nat>, blocked: bool)

  datatype Owned = Owned(
    resource: Resource,
    sentRevision: nat,
    sent: ResourceSpec,
    confirmed: Option<ConfirmedState>,
    execution: Option<Failure>,
    retiring: bool
  ) {
    predicate AwaitingEvaluation() {
      confirmed.None? || confirmed.value.evaluatedRevision < sentRevision
    }

    predicate Rejected() {
      confirmed.Some? && confirmed.value.rejection.Some? && confirmed.value.evaluatedRevision == sentRevision
    }
  }

  datatype Change =
    | OwnedChange(
        resource: Resource, reference: nat, retiredBinding: Option<Binding>, state: ConfirmedState, newEvaluation: bool)
    | ParticipantChange(participantId: string)
    | TrackChange(trackId: string)
    | SessionChange
    | InitialComplete

  type Index = map<string, set<nat>>

  /** What is wanted, what was sent, and the queues between the two. */
  datatype Ledger = Ledger(
    revision: nat,
    targets: map<Resource, Target>,
    owned: map<nat, Owned>,
    dirty: set<Resource>,
    retiring: set<nat>,
    executions: set<nat>,
    preferExecution: bool,
    retiringResources: map<Resource, nat>,
    cursor: Option<Resource>,
    preferRetirement: bool
  )

  /** What the server told about participants and tracks, with the indexes of live references by identity. */
  datatype Catalog = Catalog(
    participants: map<string, Participant>,
    tracks: map<string, Track>,
    sourceReferences: Index,
    participantReferences: Index,
    selfParticipant: Participant
  )

  datatype State = State(
    ledger: Ledger,
    catalog: Catalog,
    session: Option<SessionState>,
    initialComplete: bool,
    terminal: bool,
    retainedBytes: nat,
    memoryLimit: nat
  )

  const EMPTY_LEDGER := Ledger(0, map[], map[], {}, {}, {}, true, map[], None, true)

  function Initial(memoryLimit: nat, selfParticipant: Participant): State {
    State(EMPTY_LEDGER, Catalog(map[], map[], map[], map[], selfParticipant), None, false, false, 0, memoryLimit)
  }

  function Lookup<K, V>(m: map<K, V>, k: K): Option<V> {
    if k in m then Some(m[k]) else None
  }

  function OrElse<T>(a: Option<T>, b: Option<T>): Option<T> {
    if a.Some? then a else b
  }

  // ---- memory budget

  function ConfirmedBytes(c: Codec, confirmed: Option<ConfirmedState>): nat {
    if confirmed.Some? then c.confirmedBytes(confirmed.value) else 0
  }

  function ReportBytes(c: Codec, execution: Option<Failure>): nat {
    if execution.Some? then c.reportBytes(execution.value) else 0
  }

  function TargetBytes(c: Codec, resource: Resource, target: Target): nat {
    c.keyBytes(resource) + c.specBytes(target.spec)
  }

  function OwnedBytes(c: Codec, row: Owned): nat {
    c.rowBytes(row.resource) + c.specBytes(row.sent) + ConfirmedBytes(c, row.confirmed) + ReportBytes(c, row.execution)
  }

  function Account(s: State, before: nat, after: nat): Option<nat> {
    if before <= s.retainedBytes && s.retainedBytes - before + after <= s.memoryLimit
    then Some(s.retainedBytes - before + after)
    else None
  }

  // ---- stage, retry, report

  /** Whether the wanted declaration differs from the one the target holds, so that its reference must end first. */
  predicate Replaces(l: Ledger, resource: Resource, spec: Option<ResourceSpec>) {
    resource in l.targets && (spec.None? || !DeclarationsEquivalent(l.targets[resource].spec, spec.value))
  }

  function PreviousReference(l: Ledger, resource: Resource): Option<nat> {
    if resource in l.targets then l.targets[resource].reference else None
  }

  predicate AlreadySent(l: Ledger, reference: Option<nat>, spec: ResourceSpec) {
    reference.Some? && reference.value in l.owned && SpecsEqual(l.owned[reference.value].sent, spec)
  }

  function StagedTarget(l: Ledger, resource: Resource, spec: ResourceSpec): Target {
    var replace := Replaces(l, resource, Some(spec));
    var previous := PreviousReference(l, resource);
    var retiring := Lookup(l.retiringResources, resource);
    var reference := if replace then None else previous;
    Target(
      spec,
      reference,
      if replace then OrElse(previous, retiring) else retiring,
      AlreadySent(l, reference, spec) && l.owned[reference.value].Rejected()
    )
  }

  /** The reference that staging sends into retirement, if any. */
  function Retires(l: Ledger, resource: Resource, spec: Option<ResourceSpec>): Option<nat> {
    if Replaces(l, resource, spec) then PreviousReference(l, resource) else None
  }

  predicate StagedDirty(l: Ledger, resource: Resource, spec: Option<ResourceSpec>) {
    spec.Some? &&
    var next := StagedTarget(l, resource, spec.value);
    next.waitingFor.None? && !AlreadySent(l, next.reference, next.spec)
  }

  function Staged(l: Ledger, resource: Resource, spec: Option<ResourceSpec>): Ledger {
    var ending := Retires(l, resource, spec);
    l.(
      owned := if ending.Some? && ending.value in l.owned
               then l.owned[ending.value := l.owned[ending.value].(retiring := true)] else l.owned,
      retiring := if ending.Some? then l.retiring + {ending.value} else l.retiring,
      retiringResources := if ending.Some? then l.retiringResources[resource := ending.value] else l.retiringResources,
      dirty := if StagedDirty(l, resource, spec) then l.dirty + {resource} else l.dirty - {resource},
      targets := if spec.Some? then l.targets[resource := StagedTarget(l, resource, spec.value)]
                 else l.targets - {resource}
    )
  }

  function StageError(c: Codec, s: State, resource: Resource, spec: Option<ResourceSpec>): Option<SignalingError> {
    if s.terminal then Some(TerminalSession)
    else if spec.None? then None
    else if !c.validSpec(spec.value) then Some(InvalidSpec)
    else if !MatchesSpec(resource, spec.value) then Some(ResourceCorrelation)
    else if !c.encodable(spec.value) then Some(Encode)
    else None
  }

  predicate Unchanged(l: Ledger, resource: Resource, spec: Option<ResourceSpec>) {
    resource in l.targets && spec.Some? && SpecsEqual(l.targets[resource].spec, spec.value)
  }

  function StageBytes(c: Codec, s: State, resource: Resource, spec: Option<ResourceSpec>): Option<nat> {
    var l := s.ledger;
    Account(
      s,
      if resource in l.targets then TargetBytes(c, resource, l.targets[resource]) else 0,
      if spec.Some? then TargetBytes(c, resource, StagedTarget(l, resource, spec.value)) else 0
    )
  }

  function Stage(c: Codec, s: State, resource: Resource, spec: Option<ResourceSpec>): (State, Option<SignalingError>) {
    var error := StageError(c, s, resource, spec);
    if error.Some? then (s, error)
    else if Unchanged(s.ledger, resource, spec) then (s, None)
    else
      var bytes := StageBytes(c, s, resource, spec);
      if bytes.None? then (s, Some(MemoryBudget))
      else (s.(ledger := Staged(s.ledger, resource, spec), retainedBytes := bytes.value), None)
  }

  function Retried(l: Ledger, resource: Resource): Ledger {
    if resource !in l.targets then l
    else
      var target := l.targets[resource].(blocked := false);
      l.(
        targets := l.targets[resource := target],
        dirty := if target.waitingFor.None? then l.dirty + {resource} else l.dirty
      )
  }

  predicate AdmittedReceiver(row: Owned) {
    && row.resource.Reception?
    && row.confirmed.Some? && row.confirmed.value.value.Live?
    && row.confirmed.value.value.live.spec.declaration.SubscriptionTo?
    && row.confirmed.value.value.live.spec.declaration.binding.Rtp?
  }

  function Reported(l: Ledger, reference: nat, failure: Failure): Ledger
    requires reference in l.owned
  {
    l.(
      owned := l.owned[reference := l.owned[reference].(execution := Some(failure))],
      executions := l.executions + {reference}
    )
  }

  function Report(c: Codec, s: State, reference: nat, failure: Failure): (State, Option<SignalingError>) {
    var l := s.ledger;
    if s.terminal || reference !in l.owned || l.owned[reference].retiring then (s, None)
    else if !AdmittedReceiver(l.owned[reference]) then (s, Some(NoAdmittedReceiver))
    else if !c.validReport(failure) then (s, Some(InvalidReport))
    else
      var bytes := Account(s, ReportBytes(c, l.owned[reference].execution), c.reportBytes(failure));
      if bytes.None? then (s, Some(MemoryBudget))
      else (s.(ledger := Reported(l, reference, failure), retainedBytes := bytes.value), None)
  }

  // ---- the frame scheduler

  datatype Work =
    | Idle
    | DropExecution(reference: nat)
    | SendExecution(reference: nat)
    | DropRetirement(reference: nat)
    | SendRetirement(reference: nat)
    | DropDirty(resource: Resource)
    | SendTarget(resource: Resource)

  predicate Deferred(l: Ledger, target: Target) {
    target.blocked
    || (target.reference.Some? && target.reference.value in l.owned
      && l.owned[target.reference.value].AwaitingEvaluation())
  }

  function ChosenRetirement(l: Ledger): Option<nat> {
    if (l.preferRetirement || l.dirty == {}) && l.retiring != {} then Some(Least(l.retiring)) else None
  }

  function ChosenExecution(l: Ledger): Option<nat> {
    var retirement := ChosenRetirement(l);
    if retirement.Some? && retirement.value in l.executions then retirement
    else if l.executions != {} then Some(Least(l.executions))
    else None
  }

  /** What one turn of the frame loop does. */
  function NextWork(l: Ledger): (work: Work)
    ensures work.DropExecution? || work.SendExecution? ==> work.reference in l.executions
    ensures work.DropRetirement? || work.SendRetirement? ==> work.reference in l.retiring
    ensures work.DropDirty? || work.SendTarget? ==> work.resource in l.dirty
    ensures work.Idle? <==> l.dirty == {} && l.retiring == {} && l.executions == {}
    ensures work.SendExecution? ==> work.reference in l.owned && l.owned[work.reference].execution.Some?
    ensures work.SendRetirement? ==> work.reference in l.owned
    ensures work.SendTarget? ==> work.resource in l.targets && !Deferred(l, l.targets[work.resource])
    ensures l.executions != {} && l.preferExecution ==> work.DropExecution? || work.SendExecution?
    ensures work.DropExecution? || work.SendExecution? ==>
      || l.preferExecution || (l.dirty == {} && l.retiring == {})
      || (l.retiring != {} && work.reference == Least(l.retiring))
    ensures work.DropRetirement? || work.SendRetirement? ==>
      && (l.preferRetirement || l.dirty == {})
      && work.reference == Least(l.retiring) && work.reference !in l.executions
    ensures work.DropDirty? || work.SendTarget? ==>
      (!l.preferRetirement || l.retiring == {}) && Some(work.resource) == NextAfter(l.dirty, l.cursor)
  {
    var resource := NextAfter(l.dirty, l.cursor);
    var retirement := ChosenRetirement(l);
    var execution := ChosenExecution(l);
    if execution.Some?
       && (l.preferExecution || (resource.None? && retirement.None?) || retirement == execution) then
      if execution.value in l.owned && l.owned[execution.value].execution.Some?
      then SendExecution(execution.value)
      else DropExecution(execution.value)
    else if retirement.Some? then
      if retirement.value in l.owned then SendRetirement(retirement.value) else DropRetirement(retirement.value)
    else if resource.Some? then
      if resource.value in l.targets && !Deferred(l, l.targets[resource.value])
      then SendTarget(resource.value)
      else DropDirty(resource.value)
    else Idle
  }

  predicate Sends(work: Work) {
    work.SendExecution? || work.SendRetirement? || work.SendTarget?
  }

  function Discard(l: Ledger, work: Work): Ledger {
    match work
    case DropExecution(reference) => l.(executions := l.executions - {reference})
    case DropRetirement(reference) => l.(retiring := l.retiring - {reference})
    case DropDirty(resource) => l.(dirty := l.dirty - {resource})
    case _ => l
  }

  function RecordFor(l: Ledger, work: Work): Record
    requires Sends(work) && work == NextWork(l)
  {
    var revision := l.revision + 1;
    match work
    case SendExecution(reference) =>
      Record(l.owned[reference].resource, reference, revision, Execution(l.owned[reference].execution.value))
    case SendRetirement(reference) =>
      Record(l.owned[reference].resource, reference, revision, Withdraw)
    case SendTarget(resource) =>
      var target := l.targets[resource];
      var reference := if target.reference.Some? then target.reference.value else revision;
      Record(resource, reference, revision, Present(target.spec))
  }

  /** A withdrawal or a report needs the row it speaks of. */
  predicate HasRow(l: Ledger, record: Record) {
    record.body.Present? || record.reference in l.owned
  }

  /** The row kept for a desired record. */
  function RowAfter(l: Ledger, record: Record): Owned
    requires HasRow(l, record) && !record.body.Execution?
  {
    var previous := Lookup(l.owned, record.reference);
    Owned(
      record.resource,
      record.revision,
      if record.body.Present? then record.body.spec else previous.value.sent,
      if previous.Some? then previous.value.confirmed else None,
      if previous.Some? then previous.value.execution else None,
      record.body.Withdraw?
    )
  }

  /** The budget after the record, or nothing when the budget refuses it. */
  function CommitBytes(c: Codec, s: State, record: Record): Option<nat>
    requires HasRow(s.ledger, record)
  {
    var l := s.ledger;
    if record.body.Execution? then
      Account(s, c.reportBytes(record.body.failure), 0)
    else
      Account(s, if record.reference in l.owned then OwnedBytes(c, l.owned[record.reference]) else 0,
              OwnedBytes(c, RowAfter(l, record)))
  }

  function Committed(l: Ledger, record: Record): Ledger
    requires HasRow(l, record)
  {
    var desired := !record.body.Execution?;
    var present := record.body.Present?;
    l.(
      revision := record.revision,
      preferExecution := desired,
      preferRetirement := if desired then present else l.preferRetirement,
      cursor := if present then Some(record.resource) else l.cursor,
      owned := l.owned[record.reference :=
                         if desired then RowAfter(l, record) else l.owned[record.reference].(execution := None)],
      executions := if desired then l.executions else l.executions - {record.reference},
      retiring := if record.body.Withdraw? then l.retiring - {record.reference} else l.retiring,
      targets := if present && record.resource in l.targets
                 then l.targets[record.resource := l.targets[record.resource].(reference := Some(record.reference))]
                 else l.targets,
      dirty := if present then l.dirty - {record.resource} else l.dirty
    )
  }

  function Pending(l: Ledger): nat {
    |l.executions| + |l.retiring| + |l.dirty|
  }

  lemma DiscardShrinks(l: Ledger)
    requires !Sends(NextWork(l)) && !NextWork(l).Idle?
    ensures Pending(Discard(l, NextWork(l))) < Pending(l)
  {
  }

  lemma CommitShrinks(l: Ledger)
    requires Sends(NextWork(l))
    ensures var record := RecordFor(l, NextWork(l)); HasRow(l, record) && Pending(Committed(l, record)) < Pending(l)
  {
  }

  /** One turn of the frame loop: drop stale work, or add one record, or stop. */
  datatype Turn = Stop(error: Option<SignalingError>) | Skip(state: State) | Add(state: State, record: Record)

  /** Trying to add one record to the batch. */
  function OfferOf(c: Codec, s: State, batch: seq<Record>, record: Record): Turn
    requires HasRow(s.ledger, record)
  {
    if s.ledger.revision == U64_MAX then Stop(Some(RevisionExhaustion))
    else if !c.fits(batch + [record]) then Stop(if batch == [] then Some(Encode) else None)
    else
      var bytes := CommitBytes(c, s, record);
      if bytes.None? then
        Stop(if record.body.Execution? || batch == [] then Some(MemoryBudget) else None)
      else Add(s.(ledger := Committed(s.ledger, record), retainedBytes := bytes.value), record)
  }

  function TurnOf(c: Codec, s: State, batch: seq<Record>): (turn: Turn)
    ensures turn.Skip? || turn.Add? ==> Pending(turn.state.ledger) < Pending(s.ledger)
  {
    var work := NextWork(s.ledger);
    if |batch| >= MAX_RECORDS || work.Idle? then Stop(None)
    else if !Sends(work) then
      DiscardShrinks(s.ledger);
      Skip(s.(ledger := Discard(s.ledger, work)))
    else
      CommitShrinks(s.ledger);
      OfferOf(c, s, batch, RecordFor(s.ledger, work))
  }

  /** What a turn that goes on looks like, without the choices that led to it. */
  lemma TurnShape(c: Codec, s: State, batch: seq<Record>)
    ensures var turn := TurnOf(c, s, batch);
      && (turn.Skip? ==> turn.state == s.(ledger := Discard(s.ledger, NextWork(s.ledger))))
      && (turn.Add? ==>
            && Sends(NextWork(s.ledger)) && s.ledger.revision != U64_MAX
            && turn.record == RecordFor(s.ledger, NextWork(s.ledger))
            && HasRow(s.ledger, turn.record)
            && |batch| < MAX_RECORDS
            && CommitBytes(c, s, turn.record) == Some(turn.state.retainedBytes)
            && turn.state == s.(ledger := Committed(s.ledger, turn.record), retainedBytes := turn.state.retainedBytes))
  {
  }

  datatype Scheduled = Scheduled(state: State, records: seq<Record>, error: Option<SignalingError>)

  /** The frame loop from a partly filled batch. */
  function Schedule(c: Codec, s: State, batch: seq<Record>): (r: Scheduled)
    decreases Pending(s.ledger)
  {
    match TurnOf(c, s, batch)
    case Stop(error) => Scheduled(s, batch, error)
    case Skip(s1) => Schedule(c, s1, batch)
    case Add(s1, record) => Schedule(c, s1, batch + [record])
  }

  datatype Outcome = Nothing | Frame(records: seq<Record>) | Failed(error: SignalingError)

  function OutcomeOf(r: Scheduled): Outcome {
    if r.error.Some? then Failed(r.error.value)
    else if r.records == [] then Nothing
    else if !ValidClientBatch(r.records) then Failed(Encode)
    else Frame(r.records)
  }

  function NextFrame(c: Codec, s: State): (State, Outcome) {
    if s.terminal then (s, Nothing)
    else
      var r := Schedule(c, s, []);
      (r.state, OutcomeOf(r))
  }

  // ---- server batches

  function LiveAt(l: Ledger, reference: nat): Option<LiveResource> {
    if reference in l.owned && l.owned[reference].confirmed.Some? && l.owned[reference].confirmed.value.value.Live?
    then Some(l.owned[reference].confirmed.value.value.live)
    else None
  }

  /** The live resource behind the first reference an index keeps for `id`: the only one an update is compared with. */
  function FirstIndexed(l: Ledger, index: Index, id: string): Option<LiveResource> {
    if id in index && index[id] != {} then LiveAt(l, Least(index[id])) else None
  }

  predicate SourceValid(l: Ledger, g: Catalog, live: LiveResource) {
    var participant := live.participant;
    var track := live.track;
    var byParticipant := FirstIndexed(l, g.participantReferences, participant.participantId);
    var bySource := FirstIndexed(l, g.sourceReferences, track.trackId);
    && (live.spec.declaration.PublicationOf? ==> participant == g.selfParticipant)
    && (participant.participantId in g.participants ==> g.participants[participant.participantId] == participant)
    && (track.trackId in g.tracks ==> TracksEqual(g.tracks[track.trackId], track))
    && (byParticipant.Some? ==> byParticipant.value.participant == participant)
    && (bySource.Some? ==> TracksEqual(bySource.value.track, track))
  }

  function OwnedError(l: Ledger, g: Catalog, reference: nat, state: ConfirmedState): Option<SignalingError>
    requires reference in l.owned
  {
    var row := l.owned[reference];
    var previous := LiveAt(l, reference);
    if state.evaluatedRevision > row.sentRevision
       || (row.confirmed.Some? && state.evaluatedRevision < row.confirmed.value.evaluatedRevision)
    then Some(EvaluatedRevision)
    else if state.value.Absent? then None
    else if !SourceValid(l, g, state.value.live) then Some(SourceIdentity)
    else if !DeclarationsEquivalent(row.sent, state.value.live.spec) then Some(AcceptedDeclaration)
    else if previous.Some? && (previous.value.participant != state.value.live.participant
                               || !TracksEqual(previous.value.track, state.value.live.track))
    then Some(OwnedIdentity)
    else None
  }

  function AddReference(index: Index, key: string, reference: nat): Index {
    index[key := (if key in index then index[key] else {}) + {reference}]
  }

  function RemoveReference(index: Index, key: string, reference: nat): Index {
    if key !in index then index
    else if index[key] - {reference} == {} then index - {key}
    else index[key := index[key] - {reference}]
  }

  /** A reference enters the indexes with its first live confirmation and leaves them when it ends. */
  function Reindexed(l: Ledger, g: Catalog, reference: nat, state: ConfirmedState): Catalog {
    var previous := LiveAt(l, reference);
    if state.value.Absent? && previous.Some? then
      g.(
        sourceReferences := RemoveReference(g.sourceReferences, previous.value.track.trackId, reference),
        participantReferences :=
          RemoveReference(g.participantReferences, previous.value.participant.participantId, reference)
      )
    else if state.value.Live? && previous.None? then
      g.(
        sourceReferences := AddReference(g.sourceReferences, state.value.live.track.trackId, reference),
        participantReferences :=
          AddReference(g.participantReferences, state.value.live.participant.participantId, reference)
      )
    else g
  }

  /** The server refused exactly what the target still wants. */
  predicate Refuses(row: Owned, target: Target, state: ConfirmedState) {
    && state.value.Live? && state.rejection.Some?
    && state.evaluatedRevision == row.sentRevision && SpecsEqual(row.sent, target.spec)
  }

  /** The row's target after the confirmation. */
  function SettledTarget(row: Owned, target: Target, reference: nat, state: ConfirmedState): Target {
    if state.value.Absent? && target.waitingFor == Some(reference) then target.(waitingFor := None)
    else if target.reference == Some(reference) && state.value.Absent? then target.(reference := None, blocked := true)
    else if target.reference == Some(reference) && Refuses(row, target, state) then target.(blocked := true)
    else target
  }

  /** Evaluation caught up with what was sent, and something else is wanted by now. */
  predicate Resends(row: Owned, target: Target, reference: nat, state: ConfirmedState) {
    && state.value.Live? && !row.retiring && row.sentRevision <= state.evaluatedRevision
    && target.reference == Some(reference) && target.waitingFor.None? && !target.blocked
    && !SpecsEqual(row.sent, target.spec)
  }

  function SettledDirty(l: Ledger, row: Owned, reference: nat, state: ConfirmedState): set<Resource> {
    if row.resource !in l.targets then l.dirty
    else
      var target := l.targets[row.resource];
      if state.value.Absent? && target.waitingFor == Some(reference) then l.dirty + {row.resource}
      else if target.reference == Some(reference) && (state.value.Absent? || Refuses(row, target, state))
      then l.dirty - {row.resource}
      else if Resends(row, target, reference, state) then l.dirty + {row.resource}
      else l.dirty
  }

  function Settled(l: Ledger, reference: nat, state: ConfirmedState): Ledger
    requires reference in l.owned
  {
    var row := l.owned[reference];
    var ended := state.value.Absent?;
    l.(
      targets := if row.resource in l.targets
                 then l.targets[row.resource := SettledTarget(row, l.targets[row.resource], reference, state)]
                 else l.targets,
      dirty := SettledDirty(l, row, reference, state),
      owned := if ended then l.owned - {reference} else l.owned[reference := row.(confirmed := Some(state))],
      retiring := if ended then l.retiring - {reference} else l.retiring,
      executions := if ended then l.executions - {reference} else l.executions,
      retiringResources := if ended && Lookup(l.retiringResources, row.resource) == Some(reference)
                           then l.retiringResources - {row.resource} else l.retiringResources
    )
  }

  function RetiredBinding(l: Ledger, reference: nat, state: ConfirmedState): Option<Binding>
    requires reference in l.owned
  {
    var previous := LiveAt(l, reference);
    if state.value.Absent? && previous.Some? && l.owned[reference].resource.Reception?
       && previous.value.spec.declaration.SubscriptionTo?
    then Some(previous.value.spec.declaration.binding)
    else None
  }

  function ConfirmBytes(c: Codec, s: State, reference: nat, state: ConfirmedState): Option<nat>
    requires reference in s.ledger.owned
  {
    var row := s.ledger.owned[reference];
    Account(s, OwnedBytes(c, row),
            if state.value.Absent? then 0
            else OwnedBytes(c, row) - ConfirmedBytes(c, row.confirmed) + c.confirmedBytes(state))
  }

  datatype Applied = Applied(state: State, changes: seq<Change>, error: Option<SignalingError>)

  function OwnedChangeOf(l: Ledger, reference: nat, state: ConfirmedState): Change
    requires reference in l.owned
  {
    var row := l.owned[reference];
    OwnedChange(row.resource, reference, RetiredBinding(l, reference, state), state,
                row.confirmed.None? || row.confirmed.value.evaluatedRevision != state.evaluatedRevision)
  }

  function ApplyOwned(c: Codec, s: State, reference: nat, state: ConfirmedState): Applied {
    var l := s.ledger;
    if reference !in l.owned then
      Applied(s, [], if reference <= l.revision && state.value.Absent? then None else Some(UnknownReference))
    else
      var error := OwnedError(l, s.catalog, reference, state);
      if error.Some? then Applied(s, [], error)
      else if l.owned[reference].confirmed == Some(state) then Applied(s, [], None)
      else
        var bytes := ConfirmBytes(c, s, reference, state);
        if bytes.None? then Applied(s, [], Some(MemoryBudget))
        else
          Applied(
            s.(ledger := Settled(l, reference, state), catalog := Reindexed(l, s.catalog, reference, state),
               retainedBytes := bytes.value),
            [OwnedChangeOf(l, reference, state)], None)
  }

  function ApplySession(c: Codec, s: State, session: SessionState): Applied {
    if s.session.Some? && s.session.value.authorization.Some? && session.authorization.Some?
       && (session.authorization.value.revision < s.session.value.authorization.value.revision
           || (session.authorization.value.revision == s.session.value.authorization.value.revision
               && session.authorization != s.session.value.authorization))
    then Applied(s, [], Some(AuthorizationRevision))
    else if s.session == Some(session) then Applied(s, [], None)
    else
      var bytes := Account(s, if s.session.Some? then c.sessionBytes(s.session.value) else 0, c.sessionBytes(session));
      if bytes.None? then Applied(s, [], Some(MemoryBudget))
      else
        Applied(s.(retainedBytes := bytes.value, terminal := session.closed, session := Some(session)),
                [SessionChange], None)
  }

  predicate ParticipantConflict(l: Ledger, g: Catalog, id: string, participant: Participant) {
    var known := FirstIndexed(l, g.participantReferences, id);
    || (id in g.participants && g.participants[id] != participant)
    || (participant.participantId == g.selfParticipant.participantId && participant != g.selfParticipant)
    || (known.Some? && known.value.participant != participant)
  }

  function ApplyParticipant(c: Codec, s: State, id: string, next: Option<Participant>): Applied {
    var g := s.catalog;
    if next.Some? && ParticipantConflict(s.ledger, g, id, next.value) then Applied(s, [], Some(ParticipantIdentity))
    else if Lookup(g.participants, id) == next then Applied(s, [], None)
    else
      var bytes := Account(s, if id in g.participants then c.participantBytes(id, g.participants[id]) else 0,
                           if next.Some? then c.participantBytes(id, next.value) else 0);
      if bytes.None? then Applied(s, [], Some(MemoryBudget))
      else
        var participants := if next.Some? then g.participants[id := next.value] else g.participants - {id};
        Applied(s.(retainedBytes := bytes.value, catalog := g.(participants := participants)),
                [ParticipantChange(id)], None)
  }

  predicate TrackConflict(l: Ledger, g: Catalog, id: string, track: Track) {
    var known := FirstIndexed(l, g.sourceReferences, id);
    || (id in g.tracks && !TracksEqual(g.tracks[id], track))
    || (known.Some? && !TracksEqual(known.value.track, track))
  }

  function ApplyTrack(c: Codec, s: State, id: string, next: Option<Track>): Applied {
    var g := s.catalog;
    if next.Some? && TrackConflict(s.ledger, g, id, next.value) then Applied(s, [], Some(TrackIdentity))
    else if Lookup(g.tracks, id) == next then Applied(s, [], None)
    else
      var bytes := Account(s, if id in g.tracks then c.trackBytes(id, g.tracks[id]) else 0,
                           if next.Some? then c.trackBytes(id, next.value) else 0);
      if bytes.None? then Applied(s, [], Some(MemoryBudget))
      else
        var tracks := if next.Some? then g.tracks[id := next.value] else g.tracks - {id};
        Applied(s.(retainedBytes := bytes.value, catalog := g.(tracks := tracks)), [TrackChange(id)], None)
  }

  function ApplyRecord(c: Codec, s: State, record: ServerRecord): Applied {
    match record
    case OwnedRecord(reference, state) => ApplyOwned(c, s, reference, state)
    case SessionRecord(session) => ApplySession(c, s, session)
    case ParticipantRecord(id, next) => ApplyParticipant(c, s, id, next)
    case TrackRecord(id, next) => ApplyTrack(c, s, id, next)
  }

  /** The records in order, up to the first error or to the end of the session. */
  function ApplyRecords(c: Codec, s: State, records: seq<ServerRecord>): (r: Applied)
    decreases |records|
  {
    if records == [] || s.terminal then Applied(s, [], None)
    else
      var first := ApplyRecord(c, s, records[0]);
      if first.error.Some? then first
      else
        var rest := ApplyRecords(c, first.state, records[1..]);
        Applied(rest.state, first.changes + rest.changes, rest.error)
  }

  function Apply(c: Codec, s: State, batch: ServerBatch): Applied {
    if s.terminal then Applied(s, [], None)
    else
      var r := ApplyRecords(c, s, batch.records);
      if r.error.Some? || !batch.initialComplete || r.state.terminal then r
      else if r.state.initialComplete then Applied(r.state, r.changes, Some(RepeatedInitialCompletion))
      else Applied(r.state.(initialComplete := true), r.changes + [InitialComplete], None)
  }

  // ---- runs

  datatype Event =
    | StageEvent(resource: Resource, spec: Option<ResourceSpec>)
    | RetryEvent(resource: Resource)
    | ReportEvent(reference: nat, failure: Failure)
    | FrameEvent
    | ServerEvent(batch: ServerBatch)

  function Step(c: Codec, s: State, event: Event): State {
    match event
    case StageEvent(resource, spec) => Stage(c, s, resource, spec).0
    case RetryEvent(resource) => s.(ledger := Retried(s.ledger, resource))
    case ReportEvent(reference, failure) => Report(c, s, reference, failure).0
    case FrameEvent => NextFrame(c, s).0
    case ServerEvent(batch) => Apply(c, s, batch).state
  }

  function Run(c: Codec, s: State, events: seq<Event>): State {
    if events == [] then s
    else Step(c, Run(c, s, events[..|events| - 1]), events[|events| - 1])
  }

  /** Only batches the codec accepts reach the client. */
  ghost predicate Decoded(events: seq<Event>) {
    forall event | event in events :: event.ServerEvent? ==> ValidServerBatch(event.batch)
  }
}
