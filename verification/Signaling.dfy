/**
 * The control pump joined with the reconciler it serves: what the host has taken
 * of the active session's frames, read as records, against the wire protocol.
 */
module Signaling {
  import opened Basics
  import opened Wire
  import C = Connection
  import CI = ConnectionInvariants
  import P = ControlPump
  import R = Reconciliation
  import RI = ReconciliationInvariants
  import W = WireHistory
  import S = SchedulerFairness

  type Encoding = seq<Record> -> C.Frame

  /** `origin` and `log` are the active session's reconciler, `frames` the batches it has produced. */
  datatype Joint = Joint(agent: C.State, origin: R.State, log: seq<R.Event>, frames: seq<seq<Record>>)

  function Client(c: Codec, j: Joint): R.State {
    R.Run(c, j.origin, j.log)
  }

  predicate Open(s: C.State) {
    s.link.active.Some? && !s.link.active.value.fenced
  }

  /** The event makes the pump ask the reconciler for a frame. */
  predicate Pulls(s: C.State, event: C.Event) {
    && event.Timer? && s.pump.wake == Some(event.timer)
    && !(s.link.retry.Some? && s.link.retry.value.timer == event.timer)
    && Open(s) && !s.link.terminal && s.link.closing.None? && s.pump.signalRetry.None? && s.pump.pending.None?
  }

  /** A session other than the one before is active. */
  predicate Opened(s: C.State, t: C.State) {
    t.link.active.Some? &&
    (s.link.active.None? || s.link.active.value.generation != t.link.active.value.generation)
  }

  function OfferOf(outcome: R.Outcome, encode: Encoding): C.Offer {
    match outcome
    case Nothing => C.Nothing
    case Frame(records) => C.Next(encode(records))
    case Failed(_) => C.Broken
  }

  datatype Move =
    | AgentMove(event: C.Event, memoryLimit: nat, participant: Participant)
    | ClientMove(change: R.Event)

  function Pulled(c: Codec, encode: Encoding, j: Joint, timer: nat): Joint {
    var outcome := R.NextFrame(c, Client(c, j)).1;
    j.(agent := C.Step(j.agent, C.Timer(timer, OfferOf(outcome, encode))),
       log := j.log + [R.FrameEvent],
       frames := if outcome.Frame? then j.frames + [outcome.records] else j.frames)
  }

  function Moved(c: Codec, encode: Encoding, j: Joint, move: Move): Joint {
    match move
    case ClientMove(event) =>
      if event.FrameEvent? || !Open(j.agent) then j else j.(log := j.log + [event])
    case AgentMove(event, memoryLimit, participant) =>
      if Pulls(j.agent, event) then Pulled(c, encode, j, event.timer)
      else
        var agent := C.Step(j.agent, event);
        if Opened(j.agent, agent) then Joint(agent, R.Initial(memoryLimit, participant), [], [])
        else j.(agent := agent)
  }

  const START := Joint(C.INITIAL, R.Initial(0, Participant("", "")), [], [])

  function Play(c: Codec, encode: Encoding, moves: seq<Move>): Joint {
    if moves == [] then START else Moved(c, encode, Play(c, encode, moves[..|moves| - 1]), moves[|moves| - 1])
  }

  /** The server's batches decode, and the host completes what it was given, once. */
  predicate Fair(j: Joint, move: Move) {
    match move
    case ClientMove(event) => event.ServerEvent? ==> ValidServerBatch(event.batch)
    case AgentMove(event, _, _) => P.Honest(j.agent, event)
  }

  ghost predicate FairPlay(c: Codec, encode: Encoding, moves: seq<Move>) {
    forall i | 0 <= i < |moves| :: Fair(Play(c, encode, moves[..i]), moves[i])
  }

  function Encoded(encode: Encoding, frames: seq<seq<Record>>): seq<C.Frame> {
    seq(|frames|, i requires 0 <= i < |frames| => encode(frames[i]))
  }

  function Flat(frames: seq<seq<Record>>): seq<Record> {
    if frames == [] then [] else Flat(frames[..|frames| - 1]) + frames[|frames| - 1]
  }

  ghost predicate JointOk(c: Codec, encode: Encoding, j: Joint) {
    && P.Sound(j.agent)
    && j.origin.ledger == R.EMPTY_LEDGER && R.Decoded(j.log)
    && (Open(j.agent) ==>
          j.agent.traffic.produced == Encoded(encode, j.frames) && Flat(j.frames) == S.RunRecords(c, j.origin, j.log))
  }

  // ---- what a step does to the frames produced

  lemma SignaledKeeps(s: C.State, outcome: C.Outcome, t: C.State)
    requires t == C.Signaled(s, outcome)
    ensures t.traffic.produced == s.traffic.produced && (Open(t) ==> t.link.active == s.link.active)
  {
  }

  lemma {:induction false} SignaledAllKeeps(s: C.State, early: seq<C.Outcome>, t: C.State)
    requires t == C.SignaledAll(s, early)
    ensures t.traffic.produced == s.traffic.produced && (Open(t) ==> t.link.active == s.link.active)
    decreases |early|
  {
    if early != [] {
      SignaledKeeps(s, early[0], C.Signaled(s, early[0]));
      if !C.Rejects(s, early[0]) {
        SignaledAllKeeps(C.Signaled(s, early[0]), early[1..], t);
      }
    }
  }

  /** An open session afterwards is a new one without frames, or the one before with its frames. */
  ghost predicate Carries(s: C.State, t: C.State) {
    Open(t) ==>
      if Opened(s, t) then t.traffic.produced == []
      else Open(s) && t.traffic.produced == s.traffic.produced
  }

  lemma ActivatedCarries(s: C.State, t: C.State)
    requires CI.Lifecycle(s) && t == C.Activated(s)
    ensures Carries(s, t)
  {
    if s.link.attempt.Some? && C.Ready(s.link.attempt.value) && s.link.attempt.value.candidate.value.participantValid {
      var a := s.link.attempt.value;
      assert CI.Recorded(s, a.generation);
      SignaledAllKeeps(C.Replaced(s, a), a.early, t);
    }
  }

  lemma ChangedCarries(s: C.State, a: C.Attempt, t: C.State)
    requires CI.Lifecycle(s) && s.link.attempt.Some? && s.link.attempt.value.generation == a.generation
    requires t == C.Activated(C.Changed(s, a))
    ensures Carries(s, t)
  {
    CI.ChangedLifecycle(s, a);
    ActivatedCarries(C.Changed(s, a), t);
  }

  lemma AttemptCarries(s: C.State, event: C.Event, t: C.State)
    requires CI.Lifecycle(s) && CI.AttemptEvent(event) && t == C.Step(s, event)
    ensures Carries(s, t)
  {
    if CI.Advanced(s, event).Some? {
      ChangedCarries(s, CI.Advanced(s, event).value, t);
    }
  }

  lemma MessageCarries(s: C.State, event: C.Event, t: C.State)
    requires event.Message? && t == C.Step(s, event)
    ensures Carries(s, t)
  {
    SignaledKeeps(s, event.outcome, C.Signaled(s, event.outcome));
  }

  lemma TimerCarries(s: C.State, event: C.Event, t: C.State)
    requires event.Timer? && !Pulls(s, event) && t == C.Step(s, event)
    ensures Carries(s, t)
  {
  }

  lemma StepCarries(s: C.State, event: C.Event, t: C.State)
    requires CI.Lifecycle(s) && !Pulls(s, event) && t == C.Step(s, event)
    ensures Carries(s, t)
  {
    if CI.AttemptEvent(event) {
      AttemptCarries(s, event, t);
    } else if event.Message? {
      MessageCarries(s, event, t);
    } else if event.Timer? {
      TimerCarries(s, event, t);
    } else if CI.PayloadEvent(event) {
      PayloadCarries(s, event, t);
    } else if event.Want? || event.Reconnect? || event.RtcClosed? || event.TransportLost? || event.Close? {
      LinkCarries(s, event, t);
    } else {
      OtherCarries(s, event, t);
    }
  }

  lemma PayloadCarries(s: C.State, event: C.Event, t: C.State)
    requires CI.PayloadEvent(event) && t == C.Step(s, event)
    ensures Carries(s, t)
  {
  }

  lemma LinkCarries(s: C.State, event: C.Event, t: C.State)
    requires event.Want? || event.Reconnect? || event.RtcClosed? || event.TransportLost? || event.Close?
    requires t == C.Step(s, event)
    ensures Carries(s, t)
  {
  }

  lemma OtherCarries(s: C.State, event: C.Event, t: C.State)
    requires !CI.AttemptEvent(event) && !event.Message? && !event.Timer? && !CI.PayloadEvent(event)
    requires !event.Want? && !event.Reconnect? && !event.RtcClosed? && !event.TransportLost? && !event.Close?
    requires t == C.Step(s, event)
    ensures Carries(s, t)
  {
  }

  lemma PullProduces(s: C.State, timer: nat, offer: C.Offer, t: C.State)
    requires CI.Lifecycle(s) && Pulls(s, C.Timer(timer, offer)) && t == C.Step(s, C.Timer(timer, offer)) && Open(t)
    ensures !offer.Broken? && !Opened(s, t)
    ensures t.traffic.produced == if offer.Next? then s.traffic.produced + [offer.frame] else s.traffic.produced
  {
  }

  // ---- runs

  lemma FlatLast(frames: seq<seq<Record>>, records: seq<Record>)
    ensures Flat(frames + [records]) == Flat(frames) + records
  {
    assert (frames + [records])[..|frames|] == frames;
  }

  lemma LoggedRecords(c: Codec, origin: R.State, log: seq<R.Event>, event: R.Event)
    ensures S.RunRecords(c, origin, log + [event])
      == S.RunRecords(c, origin, log) + S.StepRecords(c, R.Run(c, origin, log), event)
  {
    assert (log + [event])[..|log|] == log;
  }

  lemma EncodedLast(encode: Encoding, frames: seq<seq<Record>>, records: seq<Record>)
    ensures Encoded(encode, frames + [records]) == Encoded(encode, frames) + [encode(records)]
  {
  }

  lemma FrameRecords(c: Codec, client: R.State, outcome: R.Outcome)
    requires outcome == R.NextFrame(c, client).1 && !outcome.Failed?
    ensures S.StepRecords(c, client, R.FrameEvent) == if outcome.Frame? then outcome.records else []
  {
  }

  lemma StepSound(s: C.State, event: C.Event, t: C.State)
    requires P.Sound(s) && P.Honest(s, event) && t == C.Step(s, event)
    ensures P.Sound(t)
  {
    P.StepOk(s, event);
    CI.StepLifecycle(s, event);
  }

  lemma PulledFrames(c: Codec, encode: Encoding, j: Joint, timer: nat, t: Joint)
    requires CI.Lifecycle(j.agent) && Pulls(j.agent, C.Timer(timer, C.Nothing))
    requires j.agent.traffic.produced == Encoded(encode, j.frames)
    requires Flat(j.frames) == S.RunRecords(c, j.origin, j.log)
    requires t == Pulled(c, encode, j, timer) && Open(t.agent)
    ensures t.agent.traffic.produced == Encoded(encode, t.frames)
    ensures Flat(t.frames) == S.RunRecords(c, t.origin, t.log)
  {
    var client := Client(c, j);
    var outcome := R.NextFrame(c, client).1;
    PullProduces(j.agent, timer, OfferOf(outcome, encode), t.agent);
    FrameRecords(c, client, outcome);
    LoggedRecords(c, j.origin, j.log, R.FrameEvent);
    if outcome.Frame? {
      FlatLast(j.frames, outcome.records);
      EncodedLast(encode, j.frames, outcome.records);
    }
  }

  lemma PulledOk(c: Codec, encode: Encoding, j: Joint, timer: nat, t: Joint)
    requires JointOk(c, encode, j) && Pulls(j.agent, C.Timer(timer, C.Nothing)) && t == Pulled(c, encode, j, timer)
    ensures JointOk(c, encode, t)
  {
    StepSound(j.agent, C.Timer(timer, OfferOf(R.NextFrame(c, Client(c, j)).1, encode)), t.agent);
    if Open(t.agent) { PulledFrames(c, encode, j, timer, t); }
  }

  lemma MovedOk(c: Codec, encode: Encoding, j: Joint, move: Move, t: Joint)
    requires JointOk(c, encode, j) && Fair(j, move) && t == Moved(c, encode, j, move)
    ensures JointOk(c, encode, t)
  {
    match move
    case ClientMove(event) =>
      LoggedRecords(c, j.origin, j.log, event);
    case AgentMove(event, _, _) =>
      if Pulls(j.agent, event) {
        PulledOk(c, encode, j, event.timer, t);
      } else {
        StepSound(j.agent, event, t.agent);
        StepCarries(j.agent, event, t.agent);
      }
  }

  lemma {:induction false} PlayOk(c: Codec, encode: Encoding, moves: seq<Move>)
    requires FairPlay(c, encode, moves)
    ensures JointOk(c, encode, Play(c, encode, moves))
    decreases |moves|
  {
    if moves == [] {
      CI.RunLifecycle([]);
    } else {
      var last := |moves| - 1;
      forall i | 0 <= i < last ensures Fair(Play(c, encode, moves[..last][..i]), moves[..last][i]) {
        assert moves[..last][..i] == moves[..i];
      }
      PlayOk(c, encode, moves[..last]);
      MovedOk(c, encode, Play(c, encode, moves[..last]), moves[last], Play(c, encode, moves));
    }
  }

  // ---- what the host has taken

  ghost function SentOf(history: seq<W.Item>): seq<Record> {
    if history == [] then []
    else
      var last := |history| - 1;
      SentOf(history[..last]) + if history[last].Sent? then [history[last].record] else []
  }

  lemma {:induction false} SentOfConcat(a: seq<W.Item>, b: seq<W.Item>)
    ensures SentOf(a + b) == SentOf(a) + SentOf(b)
    decreases |b|
  {
    if b == [] {
      assert a + b == a;
    } else {
      SentOfConcat(a, b[..|b| - 1]);
      assert (a + b)[..|a + b| - 1] == a + b[..|b| - 1];
    }
  }

  lemma {:induction false} SentOfSent(records: seq<Record>)
    ensures SentOf(W.SentItems(records)) == records
    decreases |records|
  {
    if records != [] {
      var last := |records| - 1;
      SentOfSent(records[..last]);
      assert W.SentItems(records)[..last] == W.SentItems(records[..last]);
    }
  }

  lemma {:induction false} SentOfNone(items: seq<W.Item>)
    requires forall item | item in items :: !item.Sent?
    ensures SentOf(items) == []
    decreases |items|
  {
    if items != [] { SentOfNone(items[..|items| - 1]); }
  }

  lemma {:induction false} BatchSendsNothing(c: Codec, s: R.State, records: seq<ServerRecord>)
    ensures forall item | item in W.BatchItems(c, s, records) :: !item.Sent?
    decreases |records|
  {
    if records != [] && !s.terminal {
      BatchSendsNothing(c, R.ApplyRecord(c, s, records[0]).state, records[1..]);
    }
  }

  lemma StepSends(c: Codec, s: R.State, event: R.Event)
    ensures SentOf(W.StepItems(c, s, event)) == S.StepRecords(c, s, event)
  {
    match event
    case FrameEvent => if !s.terminal { SentOfSent(R.Schedule(c, s, []).records); }
    case ServerEvent(batch) =>
      BatchSendsNothing(c, s, batch.records);
      SentOfNone(W.StepItems(c, s, event));
    case StageEvent(_, _) =>
    case RetryEvent(_) =>
    case ReportEvent(_, _) => SentOfNone(W.StepItems(c, s, event));
  }

  lemma {:induction false} HistorySends(c: Codec, s: R.State, log: seq<R.Event>)
    ensures SentOf(W.History(c, s, log)) == S.RunRecords(c, s, log)
    decreases |log|
  {
    if log != [] {
      var last := |log| - 1;
      HistorySends(c, s, log[..last]);
      StepSends(c, R.Run(c, s, log[..last]), log[last]);
      SentOfConcat(W.History(c, s, log[..last]), W.StepItems(c, R.Run(c, s, log[..last]), log[last]));
    }
  }

  lemma {:induction false} FlatPrefix(frames: seq<seq<Record>>, n: nat)
    requires n <= |frames|
    ensures Flat(frames[..n]) <= Flat(frames)
    decreases |frames|
  {
    if n == |frames| {
      assert frames[..n] == frames;
    } else {
      assert frames[..|frames| - 1][..n] == frames[..n];
      FlatPrefix(frames[..|frames| - 1], n);
    }
  }

  /**
   * In every fair play, while the session is not fenced, the host has taken exactly the encodings of
   * the first frames produced, at most one behind, and the records in them are a prefix of those sent
   * in a history that the wire protocol accepts.
   */
  lemma HostTakesAcceptedPrefix(c: Codec, encode: Encoding, moves: seq<Move>, j: Joint, t: C.Traffic)
    requires FairPlay(c, encode, moves) && j == Play(c, encode, moves) && Open(j.agent) && t == j.agent.traffic
    ensures t.acked <= |j.frames| <= t.acked + 1
    ensures P.DeliveredFrames(t.sends, t.delivered) == Encoded(encode, j.frames[..t.acked])
    ensures Flat(j.frames[..t.acked]) <= SentOf(W.History(c, j.origin, j.log))
    ensures W.Accepts(W.START, W.History(c, j.origin, j.log))
  {
    PlayOk(c, encode, moves);
    P.DeliveredIsPrefix(j.agent);
    assert Encoded(encode, j.frames)[..t.acked] == Encoded(encode, j.frames[..t.acked]);
    HistorySends(c, j.origin, j.log);
    FlatPrefix(j.frames, t.acked);
    RI.InitialInv();
    assert W.Seen(R.EMPTY_LEDGER) == W.START;
    W.RunAccepted(c, j.origin, j.log);
  }
}
