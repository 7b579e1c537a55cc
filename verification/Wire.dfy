/**
 * The wire vocabulary of desired-state reconciliation, with protobuf values cut
 * down to what reconciliation looks at. Equivalence classes that the validation
 * library computes (bindings, settings, formats) appear as canonical values; the
 * `encoding` fields keep equivalent but differently encoded messages apart.
 */
module Wire {
  import opened Basics

  datatype TrackKind = Audio | Video | Data

  datatype MediaSlot =
    | LocalVideo(name: string)
    | LocalAudio(name: string)
    | RemoteVideo(index: nat)
    | RemoteAudio(index: nat)

  datatype Resource =
    | Publication(kind: TrackKind, title: string)
    | Reception(slot: MediaSlot)
    | DataSubscription(track: string)

  datatype Binding = Rtp(id: nat) | Sctp(id: nat)

  datatype Declaration =
    | PublicationOf(kind: TrackKind, title: string, binding: Binding)
    | SubscriptionTo(kind: TrackKind, trackId: string, binding: Binding)

  datatype Settings = Settings(enabled: bool, receive: nat)

  datatype ResourceSpec = ResourceSpec(declaration: Declaration, settings: Settings, encoding: nat)

  predicate DeclarationsEquivalent(left: ResourceSpec, right: ResourceSpec) {
    left.declaration == right.declaration
  }

  predicate SpecsEqual(left: ResourceSpec, right: ResourceSpec) {
    DeclarationsEquivalent(left, right) && left.settings == right.settings
  }

  predicate MatchesSpec(resource: Resource, spec: ResourceSpec) {
    match (resource, spec.declaration)
    case (Publication(kind, title), PublicationOf(k, t, _)) => title == t && kind == k
    case (Reception(RemoteAudio(_)), SubscriptionTo(k, _, _)) => k == Audio
    case (Reception(RemoteVideo(_)), SubscriptionTo(k, _, _)) => k == Video
    case (DataSubscription(track), SubscriptionTo(k, id, _)) => track == id && k == Data
    case _ => false
  }

  datatype Participant = Participant(participantId: string, externalId: string)

  datatype Track = Track(trackId: string, participantId: string, identity: nat, encoding: nat)

  predicate TracksEqual(left: Track, right: Track) {
    left.trackId == right.trackId && left.participantId == right.participantId && left.identity == right.identity
  }

  datatype ExecutionStatus = Disabled | Installed | WaitingForSource | ExecutionFailed

  datatype LiveResource =
    LiveResource(spec: ResourceSpec, participant: Participant, track: Track, execution: ExecutionStatus)

  type Failure = nat

  datatype Value = Live(live: LiveResource) | Absent(reason: nat)

  datatype ConfirmedState =
    ConfirmedState(evaluatedRevision: nat, rejection: Option<Failure>, value: Value)

  datatype Authorization = Authorization(revision: nat, grant: nat)

  datatype SessionState =
    SessionState(authorization: Option<Authorization>, closed: bool, diagnostic: nat)

  datatype ServerRecord =
    | OwnedRecord(reference: nat, state: ConfirmedState)
    | SessionRecord(session: SessionState)
    | ParticipantRecord(participantKey: string, participant: Option<Participant>)
    | TrackRecord(trackKey: string, track: Option<Track>)

  datatype ServerBatch = ServerBatch(records: seq<ServerRecord>, initialComplete: bool)

  /** What `decode_server` guarantees of a record it lets through. */
  predicate ValidServerRecord(record: ServerRecord) {
    match record
    case OwnedRecord(reference, state) =>
      reference != 0 && (state.value.Live? ==> reference <= state.evaluatedRevision)
    case ParticipantRecord(key, value) => value.Some? ==> value.value.participantId == key
    case TrackRecord(key, value) => value.Some? ==> value.value.trackId == key
    case SessionRecord(_) => true
  }

  predicate ValidServerBatch(batch: ServerBatch) {
    forall record | record in batch.records :: ValidServerRecord(record)
  }

  datatype Body = Present(spec: ResourceSpec) | Withdraw | Execution(failure: Failure)

  /** A client record. `resource` is implied by `reference` and is not encoded. */
  datatype Record = Record(resource: Resource, reference: nat, revision: nat, body: Body)

  /** `validate_client_batch`: what `encode_client` demands before it encodes. */
  predicate ValidClientBatch(records: seq<Record>) {
    && 0 < |records| <= MAX_RECORDS
    && (forall i | 0 <= i < |records| :: ValidClientRecord(records[i]))
    && (forall i, j | 0 <= i < j < |records| :: records[i].revision < records[j].revision)
  }

  predicate ValidClientRecord(record: Record) {
    && record.reference != 0
    && record.revision != 0
    && match record.body
       case Present(_) => record.reference <= record.revision
       case Withdraw => record.reference < record.revision
       case Execution(_) => record.reference < record.revision
  }

  const MAX_RECORDS: nat := 16

  datatype SignalingError =
    | TerminalSession
    | InvalidSpec
    | ResourceCorrelation
    | Encode
    | MemoryBudget
    | RevisionExhaustion
    | NoAdmittedReceiver
    | InvalidReport
    | UnknownReference
    | EvaluatedRevision
    | SourceIdentity
    | AcceptedDeclaration
    | OwnedIdentity
    | AuthorizationRevision
    | ParticipantIdentity
    | TrackIdentity
    | RepeatedInitialCompletion

  /** The parts of the codec and of the memory layout that stay uninterpreted. */
  datatype Codec = Codec(
    validSpec: ResourceSpec -> bool,
    encodable: ResourceSpec -> bool,
    validReport: Failure -> bool,
    fits: seq<Record> -> bool,
    keyBytes: Resource -> nat,
    rowBytes: Resource -> nat,
    specBytes: ResourceSpec -> nat,
    confirmedBytes: ConfirmedState -> nat,
    reportBytes: Failure -> nat,
    participantBytes: (string, Participant) -> nat,
    trackBytes: (string, Track) -> nat,
    sessionBytes: SessionState -> nat
  )

  /**
   * A record whose spec or report was admitted fits a frame by itself: `stage`
   * tries the widest reference and revision before it admits a spec.
   */
  ghost predicate SingleRecordsFit(c: Codec) {
    forall record: Record ::
      (record.body.Present? ==> c.encodable(record.body.spec)) ==> c.fits([record])
  }
}

/** The order `BTreeSet<Resource>` iterates in: variant first, then fields, texts by code point. */
module ResourceOrder {
  import opened Basics
  import opened Wire

  function Codes(s: string): (codes: seq<int>)
    ensures |codes| == |s| && forall i | 0 <= i < |s| :: codes[i] == s[i] as int
  {
    seq(|s|, i requires 0 <= i < |s| => s[i] as int)
  }

  lemma CodesInjective(a: string, b: string)
    requires Codes(a) == Codes(b)
    ensures a == b
  {
    forall i | 0 <= i < |a| ensures a[i] == b[i] {
      assert Codes(a)[i] == Codes(b)[i];
    }
  }

  function KindRank(kind: TrackKind): int {
    match kind case Audio => 1 case Video => 2 case Data => 3
  }

  function Key(resource: Resource): seq<int> {
    match resource
    case Publication(kind, title) => [0, KindRank(kind)] + Codes(title)
    case Reception(LocalVideo(name)) => [1, 0] + Codes(name)
    case Reception(LocalAudio(name)) => [1, 1] + Codes(name)
    case Reception(RemoteVideo(index)) => [1, 2, index]
    case Reception(RemoteAudio(index)) => [1, 3, index]
    case DataSubscription(track) => [2, 0] + Codes(track)
  }

  lemma KeyInjective(a: Resource, b: Resource)
    requires Key(a) == Key(b)
    ensures a == b
  {
    assert Key(a)[0] == Key(b)[0] && Key(a)[1] == Key(b)[1];
    assert Key(a)[2..] == Key(b)[2..];
    match (a, b)
    case (Publication(_, x), Publication(_, y)) => CodesInjective(x, y);
    case (Reception(LocalVideo(x)), Reception(LocalVideo(y))) => CodesInjective(x, y);
    case (Reception(LocalAudio(x)), Reception(LocalAudio(y))) => CodesInjective(x, y);
    case (DataSubscription(x), DataSubscription(y)) => CodesInjective(x, y);
    case (Reception(RemoteVideo(x)), Reception(RemoteVideo(y))) => assert Key(a)[2] == Key(b)[2];
    case (Reception(RemoteAudio(x)), Reception(RemoteAudio(y))) => assert Key(a)[2] == Key(b)[2];
    case _ =>
  }

  predicate KeyLess(a: seq<int>, b: seq<int>) {
    if |b| == 0 then false
    else if |a| == 0 then true
    else a[0] < b[0] || (a[0] == b[0] && KeyLess(a[1..], b[1..]))
  }

  lemma {:induction false} KeyLessTotal(a: seq<int>, b: seq<int>)
    ensures KeyLess(a, b) || KeyLess(b, a) || a == b
    ensures !(KeyLess(a, b) && KeyLess(b, a))
    ensures !KeyLess(a, a)
  {
    if |a| > 0 {
      KeyLessTotal(a[1..], a[1..]);
      if |b| > 0 {
        KeyLessTotal(a[1..], b[1..]);
        if a[0] == b[0] && a[1..] == b[1..] {
          assert a == [a[0]] + a[1..] && b == [b[0]] + b[1..];
        }
      }
    }
  }

  lemma {:induction false} KeyLessTransitive(a: seq<int>, b: seq<int>, c: seq<int>)
    requires KeyLess(a, b) && KeyLess(b, c)
    ensures KeyLess(a, c)
  {
    if |a| > 0 && a[0] == b[0] == c[0] {
      KeyLessTransitive(a[1..], b[1..], c[1..]);
    }
  }

  predicate Less(a: Resource, b: Resource) {
    KeyLess(Key(a), Key(b))
  }

  lemma LessTotal(a: Resource, b: Resource)
    ensures Less(a, b) || Less(b, a) || a == b
    ensures !(Less(a, b) && Less(b, a))
    ensures !Less(a, a)
  {
    KeyLessTotal(Key(a), Key(b));
    if Key(a) == Key(b) {
      KeyInjective(a, b);
    }
    KeyLessTotal(Key(a), Key(a));
  }

  lemma LessTransitive(a: Resource, b: Resource, c: Resource)
    requires Less(a, b) && Less(b, c)
    ensures Less(a, c)
  {
    KeyLessTransitive(Key(a), Key(b), Key(c));
  }

  predicate IsFirst(s: set<Resource>, r: Resource) {
    r in s && forall q | q in s && q != r :: Less(r, q)
  }

  lemma {:induction false} FirstExists(s: set<Resource>)
    requires s != {}
    ensures exists r :: IsFirst(s, r)
    decreases s
  {
    var y :| y in s;
    if s == {y} {
      assert IsFirst(s, y);
    } else {
      var rest := s - {y};
      FirstExists(rest);
      var m :| IsFirst(rest, m);
      LessTotal(y, m);
      if Less(y, m) {
        forall q | q in s && q != y ensures Less(y, q) {
          assert q in rest;
          if q != m { LessTransitive(y, m, q); }
        }
        assert IsFirst(s, y);
      } else {
        assert IsFirst(s, m);
      }
    }
  }

  lemma FirstUnique(s: set<Resource>, r: Resource, q: Resource)
    requires IsFirst(s, r) && IsFirst(s, q)
    ensures r == q
  {
    LessTotal(r, q);
  }

  lemma FirstUniqueAll(s: set<Resource>)
    ensures forall r, q | IsFirst(s, r) && IsFirst(s, q) :: r == q
  {
    forall r, q | IsFirst(s, r) && IsFirst(s, q) ensures r == q {
      FirstUnique(s, r, q);
    }
  }

  /** `BTreeSet::first`. */
  function First(s: set<Resource>): (r: Resource)
    requires s != {}
    ensures IsFirst(s, r)
  {
    FirstExists(s);
    FirstUniqueAll(s);
    var r :| r in s && IsFirst(s, r);
    r
  }

  /** The members strictly after the cursor. */
  function Later(s: set<Resource>, cursor: Option<Resource>): set<Resource> {
    set q | q in s && cursor.Some? && Less(cursor.value, q)
  }

  /** The first member strictly after the cursor, or the first of all: one turn of the round robin. */
  function NextAfter(s: set<Resource>, cursor: Option<Resource>): (r: Option<Resource>)
    ensures r.None? <==> s == {}
    ensures r.Some? ==> r.value in s
    ensures r.Some? && Later(s, cursor) != {} ==> IsFirst(Later(s, cursor), r.value)
    ensures r.Some? && Later(s, cursor) == {} ==> IsFirst(s, r.value)
  {
    if s == {} then None
    else if cursor.None? then
      assert Later(s, cursor) == {};
      Some(First(s))
    else
      var later := set q | q in s && Less(cursor.value, q);
      assert later == Later(s, cursor);
      if later == {} then Some(First(s)) else Some(First(later))
  }
}
