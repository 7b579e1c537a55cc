/**
 * The two identity indexes always equal a full scan of the live rows, and all
 * live and catalogued entries of one identity agree, although an update is only
 * ever compared with the first indexed reference.
 */
module IdentityIndex {
  import opened Basics
  import opened Wire
  import opened Reconciliation
  import opened ReconciliationInvariants

  ghost predicate LiveBy(l: Ledger, key: LiveResource -> string, id: string, reference: nat) {
    LiveAt(l, reference).Some? && key(LiveAt(l, reference).value) == id
  }

  ghost predicate Indexed(index: Index, id: string, reference: nat) {
    id in index && reference in index[id]
  }

  /** The index a scan of all rows would build. */
  ghost function Scan(l: Ledger, key: LiveResource -> string): Index {
    var live := set reference | reference in l.owned && LiveAt(l, reference).Some?;
    var ids := set reference | reference in live :: key(LiveAt(l, reference).value);
    map id | id in ids :: set reference | reference in live && key(LiveAt(l, reference).value) == id
  }

  ghost predicate Mirrors(l: Ledger, index: Index, key: LiveResource -> string) {
    && (forall id, reference :: Indexed(index, id, reference) <==> LiveBy(l, key, id, reference))
    && (forall id | id in index :: index[id] != {})
  }

  lemma MirrorIsScan(l: Ledger, index: Index, key: LiveResource -> string)
    requires Mirrors(l, index, key)
    ensures index == Scan(l, key)
  {
    var scan := Scan(l, key);
    forall id ensures id in index <==> id in scan {
      if id in index {
        var reference :| reference in index[id];
        assert Indexed(index, id, reference);
        assert LiveBy(l, key, id, reference);
      }
      if id in scan {
        var reference :| reference in l.owned && LiveAt(l, reference).Some? && key(LiveAt(l, reference).value) == id;
        assert LiveBy(l, key, id, reference);
        assert Indexed(index, id, reference);
      }
    }
    forall id | id in index ensures index[id] == scan[id] {
      forall reference ensures reference in index[id] <==> reference in scan[id] {
        assert Indexed(index, id, reference) <==> LiveBy(l, key, id, reference);
      }
    }
  }

  function TrackKey(live: LiveResource): string { live.track.trackId }

  function ParticipantKey(live: LiveResource): string { live.participant.participantId }

  /** Live rows of one track or participant describe it alike. */
  ghost predicate RowsAgree(l: Ledger) {
    forall a, b {:trigger LiveAt(l, a), LiveAt(l, b)} | LiveAt(l, a).Some? && LiveAt(l, b).Some? ::
      var left := LiveAt(l, a).value;
      var right := LiveAt(l, b).value;
      && (left.track.trackId == right.track.trackId ==> TracksEqual(left.track, right.track))
      && (left.participant.participantId == right.participant.participantId ==> left.participant == right.participant)
  }

  ghost predicate CatalogAgrees(l: Ledger, g: Catalog) {
    && (forall id | id in g.tracks :: g.tracks[id].trackId == id)
    && (forall id | id in g.participants :: g.participants[id].participantId == id)
    && (forall a {:trigger LiveAt(l, a)} | LiveAt(l, a).Some? ::
          var live := LiveAt(l, a).value;
          && (live.track.trackId in g.tracks ==> TracksEqual(g.tracks[live.track.trackId], live.track))
          && (live.participant.participantId in g.participants ==>
                g.participants[live.participant.participantId] == live.participant))
  }

  ghost predicate Agreed(l: Ledger, g: Catalog) {
    && Mirrors(l, g.sourceReferences, TrackKey)
    && Mirrors(l, g.participantReferences, ParticipantKey)
    && RowsAgree(l)
    && CatalogAgrees(l, g)
  }

  // ---- sending never touches identities

  ghost predicate SameLive(l: Ledger, t: Ledger) {
    forall reference :: LiveAt(t, reference) == LiveAt(l, reference)
  }

  lemma SameLiveMirrors(l: Ledger, t: Ledger, index: Index, key: LiveResource -> string)
    requires SameLive(l, t) && Mirrors(l, index, key)
    ensures Mirrors(t, index, key)
  {
    forall id, reference ensures Indexed(index, id, reference) <==> LiveBy(t, key, id, reference) {
      assert LiveAt(t, reference) == LiveAt(l, reference);
      assert Indexed(index, id, reference) <==> LiveBy(l, key, id, reference);
    }
  }

  lemma SameLiveAgreed(l: Ledger, t: Ledger, g: Catalog)
    requires SameLive(l, t) && Agreed(l, g)
    ensures Agreed(t, g)
  {
    SameLiveMirrors(l, t, g.sourceReferences, TrackKey);
    SameLiveMirrors(l, t, g.participantReferences, ParticipantKey);
    forall a, b | LiveAt(t, a).Some? && LiveAt(t, b).Some?
      ensures LiveAt(l, a).Some? && LiveAt(l, b).Some?
    {
      assert LiveAt(t, a) == LiveAt(l, a) && LiveAt(t, b) == LiveAt(l, b);
    }
  }

  lemma {:induction false} ScheduleSameLive(c: Codec, s: State, batch: seq<Record>)
    ensures SameLive(s.ledger, Schedule(c, s, batch).state.ledger)
    decreases Pending(s.ledger)
  {
    TurnShape(c, s, batch);
    match TurnOf(c, s, batch)
    case Stop(_) =>
    case Skip(s1) =>
      DiscardSameLive(s.ledger, NextWork(s.ledger));
      ScheduleSameLive(c, s1, batch);
      SameLiveTrans(s.ledger, s1.ledger, Schedule(c, s1, batch).state.ledger);
    case Add(s1, record) =>
      CommittedSameLive(s.ledger, record);
      ScheduleSameLive(c, s1, batch + [record]);
      SameLiveTrans(s.ledger, s1.ledger, Schedule(c, s1, batch + [record]).state.ledger);
  }

  lemma SameLiveTrans(l: Ledger, m: Ledger, t: Ledger)
    requires SameLive(l, m) && SameLive(m, t)
    ensures SameLive(l, t)
  {
    forall reference ensures LiveAt(t, reference) == LiveAt(l, reference) {
      assert LiveAt(m, reference) == LiveAt(l, reference);
    }
  }

  lemma DiscardSameLive(l: Ledger, work: Work)
    ensures SameLive(l, Discard(l, work))
  {
  }

  lemma CommittedSameLive(l: Ledger, record: Record)
    requires HasRow(l, record)
    ensures SameLive(l, Committed(l, record))
  {
  }

  // ---- a confirmation, compared with one row, agrees with all

  /** The first indexed row stands for every live row of its identity. */
  lemma FirstStandsForAll(l: Ledger, index: Index, key: LiveResource -> string, id: string, reference: nat)
    requires Mirrors(l, index, key) && LiveBy(l, key, id, reference)
    ensures FirstIndexed(l, index, id).Some? && key(FirstIndexed(l, index, id).value) == id
    ensures exists first :: LiveAt(l, first).Some? && FirstIndexed(l, index, id) == LiveAt(l, first)
  {
    assert Indexed(index, id, reference);
    var first := Least(index[id]);
    assert Indexed(index, id, first);
    assert LiveBy(l, key, id, first);
  }

  lemma ValidSourceAgrees(l: Ledger, g: Catalog, live: LiveResource, a: nat)
    requires Agreed(l, g) && SourceValid(l, g, live) && LiveAt(l, a).Some?
    ensures var other := LiveAt(l, a).value;
      && (other.track.trackId == live.track.trackId ==> TracksEqual(other.track, live.track))
      && (other.participant.participantId == live.participant.participantId ==> other.participant == live.participant)
  {
    var other := LiveAt(l, a).value;
    if other.track.trackId == live.track.trackId {
      FirstStandsForAll(l, g.sourceReferences, TrackKey, live.track.trackId, a);
    }
    if other.participant.participantId == live.participant.participantId {
      FirstStandsForAll(l, g.participantReferences, ParticipantKey, live.participant.participantId, a);
    }
  }

  lemma SettledLive(l: Ledger, reference: nat, state: ConfirmedState, other: nat)
    requires reference in l.owned
    ensures LiveAt(Settled(l, reference, state), other) ==
            (if other != reference then LiveAt(l, other)
             else if state.value.Live? then Some(state.value.live) else None)
  {
  }

  lemma SettledRowsAgree(l: Ledger, g: Catalog, reference: nat, state: ConfirmedState)
    requires Agreed(l, g) && reference in l.owned && OwnedError(l, g, reference, state).None?
    ensures RowsAgree(Settled(l, reference, state))
    ensures CatalogAgrees(Settled(l, reference, state), g)
  {
    var t := Settled(l, reference, state);
    forall a, b | LiveAt(t, a).Some? && LiveAt(t, b).Some?
      ensures var left := LiveAt(t, a).value;
        var right := LiveAt(t, b).value;
        && (left.track.trackId == right.track.trackId ==> TracksEqual(left.track, right.track))
        && (left.participant.participantId == right.participant.participantId ==> left.participant == right.participant)
    {
      SettledLive(l, reference, state, a);
      SettledLive(l, reference, state, b);
      if a != reference && b == reference { ValidSourceAgrees(l, g, state.value.live, a); }
      if a == reference && b != reference { ValidSourceAgrees(l, g, state.value.live, b); }
    }
    forall a | LiveAt(t, a).Some?
      ensures var live := LiveAt(t, a).value;
        && (live.track.trackId in g.tracks ==> TracksEqual(g.tracks[live.track.trackId], live.track))
        && (live.participant.participantId in g.participants ==>
              g.participants[live.participant.participantId] == live.participant)
    {
      SettledLive(l, reference, state, a);
    }
  }

  /** What happens to one index when the row at `reference` goes from one live value to another. */
  ghost function IndexAfter(index: Index, key: LiveResource -> string, reference: nat,
                            previous: Option<LiveResource>, next: Option<LiveResource>): Index
  {
    if next.None? && previous.Some? then RemoveReference(index, key(previous.value), reference)
    else if next.Some? && previous.None? then AddReference(index, key(next.value), reference)
    else index
  }

  lemma IndexAfterMirrors(l: Ledger, t: Ledger, index: Index, key: LiveResource -> string, reference: nat,
                          previous: Option<LiveResource>, next: Option<LiveResource>)
    requires Mirrors(l, index, key)
    requires previous == LiveAt(l, reference) && next == LiveAt(t, reference)
    requires previous.Some? && next.Some? ==> key(previous.value) == key(next.value)
    requires forall other | other != reference :: LiveAt(t, other) == LiveAt(l, other)
    ensures Mirrors(t, IndexAfter(index, key, reference, previous, next), key)
  {
    var index' := IndexAfter(index, key, reference, previous, next);
    forall id, other ensures Indexed(index', id, other) <==> LiveBy(t, key, id, other) {
      assert Indexed(index, id, other) <==> LiveBy(l, key, id, other);
      if other != reference {
        assert LiveAt(t, other) == LiveAt(l, other);
        if next.None? && previous.Some? && id == key(previous.value) && id in index && other in index[id] {
          assert other in index[id] - {reference};
        }
      }
    }
  }

  lemma SettledAgreed(l: Ledger, g: Catalog, reference: nat, state: ConfirmedState)
    requires Agreed(l, g) && reference in l.owned && OwnedError(l, g, reference, state).None?
    ensures Agreed(Settled(l, reference, state), Reindexed(l, g, reference, state))
  {
    var t := Settled(l, reference, state);
    var previous := LiveAt(l, reference);
    var next := if state.value.Live? then Some(state.value.live) else None;
    forall other ensures LiveAt(t, other) == (if other != reference then LiveAt(l, other) else next) {
      SettledLive(l, reference, state, other);
    }
    SettledRowsAgree(l, g, reference, state);
    IndexAfterMirrors(l, t, g.sourceReferences, TrackKey, reference, previous, next);
    IndexAfterMirrors(l, t, g.participantReferences, ParticipantKey, reference, previous, next);
  }

  // ---- catalog updates

  lemma ParticipantAgreed(l: Ledger, g: Catalog, id: string, next: Option<Participant>)
    requires Agreed(l, g)
    requires next.Some? ==> next.value.participantId == id && !ParticipantConflict(l, g, id, next.value)
    ensures Agreed(l, g.(participants := if next.Some? then g.participants[id := next.value]
      else g.participants - {id}))
  {
    forall a | LiveAt(l, a).Some? && next.Some? && LiveAt(l, a).value.participant.participantId == id
      ensures LiveAt(l, a).value.participant == next.value
    {
      FirstStandsForAll(l, g.participantReferences, ParticipantKey, id, a);
    }
  }

  lemma TrackAgreed(l: Ledger, g: Catalog, id: string, next: Option<Track>)
    requires Agreed(l, g)
    requires next.Some? ==> next.value.trackId == id && !TrackConflict(l, g, id, next.value)
    ensures Agreed(l, g.(tracks := if next.Some? then g.tracks[id := next.value] else g.tracks - {id}))
  {
    forall a | LiveAt(l, a).Some? && next.Some? && LiveAt(l, a).value.track.trackId == id
      ensures TracksEqual(next.value, LiveAt(l, a).value.track)
    {
      FirstStandsForAll(l, g.sourceReferences, TrackKey, id, a);
    }
  }

  lemma ApplyRecordAgreed(c: Codec, s: State, record: ServerRecord)
    requires Agreed(s.ledger, s.catalog) && ValidServerRecord(record)
    ensures var t := ApplyRecord(c, s, record).state; Agreed(t.ledger, t.catalog)
  {
    match record
    case OwnedRecord(reference, state) =>
      if reference in s.ledger.owned && OwnedError(s.ledger, s.catalog, reference, state).None? {
        SettledAgreed(s.ledger, s.catalog, reference, state);
      }
    case SessionRecord(_) =>
    case ParticipantRecord(id, next) =>
      if next.None? || !ParticipantConflict(s.ledger, s.catalog, id, next.value) {
        ParticipantAgreed(s.ledger, s.catalog, id, next);
      }
    case TrackRecord(id, next) =>
      if next.None? || !TrackConflict(s.ledger, s.catalog, id, next.value) {
        TrackAgreed(s.ledger, s.catalog, id, next);
      }
  }

  lemma {:induction false} ApplyRecordsAgreed(c: Codec, s: State, records: seq<ServerRecord>)
    requires Agreed(s.ledger, s.catalog) && forall record | record in records :: ValidServerRecord(record)
    ensures var t := ApplyRecords(c, s, records).state; Agreed(t.ledger, t.catalog)
    decreases |records|
  {
    if records != [] && !s.terminal {
      ApplyRecordAgreed(c, s, records[0]);
      ApplyRecordsAgreed(c, ApplyRecord(c, s, records[0]).state, records[1..]);
    }
  }

  lemma StepAgreed(c: Codec, s: State, event: Event)
    requires Agreed(s.ledger, s.catalog)
    requires event.ServerEvent? ==> ValidServerBatch(event.batch)
    ensures var t := Step(c, s, event); Agreed(t.ledger, t.catalog)
  {
    match event
    case ServerEvent(batch) => ApplyRecordsAgreed(c, s, batch.records);
    case FrameEvent =>
      ScheduleSameLive(c, s, []);
      ScheduleSameCatalog(c, s, []);
      SameLiveAgreed(s.ledger, Step(c, s, event).ledger, s.catalog);
    case StageEvent(resource, spec) => StageAgreed(c, s, resource, spec);
    case RetryEvent(resource) => SameLiveAgreed(s.ledger, Retried(s.ledger, resource), s.catalog);
    case ReportEvent(reference, failure) => ReportAgreed(c, s, reference, failure);
  }

  lemma StageAgreed(c: Codec, s: State, resource: Resource, spec: Option<ResourceSpec>)
    requires Agreed(s.ledger, s.catalog)
    ensures var t := Stage(c, s, resource, spec).0; Agreed(t.ledger, t.catalog)
  {
    SameLiveAgreed(s.ledger, Staged(s.ledger, resource, spec), s.catalog);
  }

  lemma ReportAgreed(c: Codec, s: State, reference: nat, failure: Failure)
    requires Agreed(s.ledger, s.catalog)
    ensures var t := Report(c, s, reference, failure).0; Agreed(t.ledger, t.catalog)
  {
    if reference in s.ledger.owned {
      SameLiveAgreed(s.ledger, Reported(s.ledger, reference, failure), s.catalog);
    }
  }

  lemma {:induction false} ScheduleSameCatalog(c: Codec, s: State, batch: seq<Record>)
    ensures Schedule(c, s, batch).state.catalog == s.catalog
    decreases Pending(s.ledger)
  {
    TurnShape(c, s, batch);
    match TurnOf(c, s, batch)
    case Stop(_) =>
    case Skip(s1) => ScheduleSameCatalog(c, s1, batch);
    case Add(s1, record) => ScheduleSameCatalog(c, s1, batch + [record]);
  }

  lemma {:induction false} RunAgreed(c: Codec, s: State, events: seq<Event>)
    requires Agreed(s.ledger, s.catalog) && Decoded(events)
    ensures var t := Run(c, s, events); Agreed(t.ledger, t.catalog)
    decreases |events|
  {
    if events != [] {
      var last := |events| - 1;
      assert Decoded(events[..last]);
      RunAgreed(c, s, events[..last]);
      StepAgreed(c, Run(c, s, events[..last]), events[last]);
    }
  }

  /** After every run both indexes equal a full scan, and every identity has one description. */
  lemma IndexesEqualScan(c: Codec, memoryLimit: nat, selfParticipant: Participant, events: seq<Event>)
    requires Decoded(events)
    ensures var s := Run(c, Initial(memoryLimit, selfParticipant), events);
      && s.catalog.sourceReferences == Scan(s.ledger, TrackKey)
      && s.catalog.participantReferences == Scan(s.ledger, ParticipantKey)
      && RowsAgree(s.ledger) && CatalogAgrees(s.ledger, s.catalog)
  {
    var s := Run(c, Initial(memoryLimit, selfParticipant), events);
    RunAgreed(c, Initial(memoryLimit, selfParticipant), events);
    MirrorIsScan(s.ledger, s.catalog.sourceReferences, TrackKey);
    MirrorIsScan(s.ledger, s.catalog.participantReferences, ParticipantKey);
  }
}
