/** What every run of the connection keeps: one owner for each generation, and an in-order control pump. */
module ConnectionInvariants {
  import opened Basics
  import opened Connection

  /** Topics run over payload channels that are not shut, and the signaling channel is not one of them. */
  ghost predicate RoutesOk(a: Session) {
    && a.channel !in a.payloads
    && (forall channel | channel in a.routes :: channel in a.payloads && !a.payloads[channel].Shut?)
  }

  ghost predicate LinkOk(l: Link) {
    && (l.active.Some? ==> RoutesOk(l.active.value))
    && (l.attempt.Some? ==> l.retry.None?)
    && (l.closing.Some? ==> l.attempt.None? && l.retry.None? && l.active.None?)
    && (l.terminal ==> l.attempt.None? && l.retry.None?)
    && (l.active.Some? && (l.attempt.Some? || l.retry.Some? || l.terminal) ==> l.active.value.fenced)
    && (l.attempt.Some? || l.retry.Some? || l.active.Some? ==> l.wanted)
  }

  function Held(l: Link, generation: nat): nat {
    (if l.attempt.Some? && l.attempt.value.generation == generation then 1 else 0)
    + (if l.active.Some? && l.active.value.generation == generation then 1 else 0)
  }

  /** The generation is the attempt, the active session, or was closed: exactly one of these, exactly once. */
  predicate OwnedOnce(s: State, generation: nat) {
    s.traffic.closes[generation] + Held(s.link, generation) == if generation < s.ids.generations then 1 else 0
  }

  predicate Stranded(s: State, generation: nat) {
    generation in s.traffic.stranded
  }

  predicate Recorded(s: State, generation: nat) {
    s.traffic.closes[generation] + Held(s.link, generation) + (if Stranded(s, generation) then 1 else 0)
    == if generation < s.ids.generations then 1 else 0
  }

  /** Every generation offered is owned once, or was stranded and is nowhere else. */
  ghost predicate Ledger(s: State) {
    forall generation: nat :: Recorded(s, generation)
  }

  /** No generation is lost. */
  ghost predicate Accounted(s: State) {
    forall generation: nat :: OwnedOnce(s, generation)
  }

  ghost predicate Lifecycle(s: State) {
    LinkOk(s.link) && Ledger(s)
  }

  // ---- the building blocks

  lemma StartedLifecycle(s: State, style: Style)
    requires Lifecycle(s) && s.link.attempt.None? && s.link.retry.None? && s.link.closing.None?
    requires s.link.wanted && (s.link.active.Some? ==> s.link.active.value.fenced)
    ensures Lifecycle(Started(s, style))
  {
    forall g: nat ensures Recorded(Started(s, style), g) {
      assert Recorded(s, g);
    }
  }

  lemma FencedLifecycle(s: State)
    requires Lifecycle(s)
    ensures Lifecycle(Fenced(s))
    ensures Fenced(s).link == s.link.(active := Fenced(s).link.active)
    ensures Fenced(s).link.active.Some? <==> s.link.active.Some?
    ensures Fenced(s).link.active.Some? ==> Fenced(s).link.active.value.fenced
  {
    forall g: nat ensures Recorded(Fenced(s), g) {
      assert Recorded(s, g);
    }
  }

  lemma HaltedLifecycle(s: State)
    requires Lifecycle(s) && s.link.attempt.None?
    ensures Lifecycle(Halted(s))
  {
    forall g: nat ensures Recorded(Halted(s), g) {
      assert Recorded(s, g);
    }
  }

  /** Dropping the attempt keeps the ledger exactly because its generation is closed. */
  lemma FailedAttemptLifecycle(s: State, transient: bool)
    requires Lifecycle(s)
    ensures Lifecycle(FailedAttempt(s, transient))
  {
    if s.link.attempt.Some? {
      var a := s.link.attempt.value;
      var freed := s.(link := s.link.(attempt := None), pump := s.pump.(pending := None),
                      traffic := Closed(s.traffic, a.generation));
      forall g: nat ensures Recorded(freed, g) {
        assert Recorded(s, g);
      }
      if transient {
        forall g: nat ensures Recorded(RetryScheduled(freed, a.style), g) {
          assert Recorded(freed, g);
        }
      } else {
        HaltedLifecycle(freed);
      }
    }
  }

  lemma FailedTerminalLifecycle(s: State, transient: bool)
    requires Lifecycle(s)
    ensures Lifecycle(FailedTerminal(s, transient))
  {
    if s.link.attempt.Some? {
      FailedAttemptLifecycle(s, transient);
    } else {
      HaltedLifecycle(s);
    }
  }

  lemma LostLifecycle(s: State, generation: nat)
    requires Lifecycle(s)
    ensures Lifecycle(Lost(s, generation))
  {
    if s.link.attempt.Some? && s.link.attempt.value.generation == generation {
      FailedAttemptLifecycle(s, true);
    } else if s.link.active.Some? && s.link.active.value.generation == generation {
      FencedLifecycle(s);
      var f := Fenced(s);
      if f.link.wanted && !f.link.terminal && f.link.attempt.None? && f.link.retry.None? {
        StartedLifecycle(f, Replacement);
      }
    }
  }

  lemma ReconnectedLifecycle(s: State)
    requires Lifecycle(s)
    ensures Lifecycle(Reconnected(s))
  {
    if s.link.wanted && s.link.closing.None? && s.link.attempt.None? {
      var r := s.(link := s.link.(retry := None, terminal := false));
      forall g: nat ensures Recorded(r, g) {
        assert Recorded(s, g);
      }
      if r.link.active.Some? {
        FencedLifecycle(r);
        StartedLifecycle(Fenced(r), Replacement);
      } else {
        StartedLifecycle(r, Fresh);
      }
    }
  }

  // ---- closing

  lemma FinishedLifecycle(s: State)
    requires Ledger(s) && s.link.attempt.None? && s.link.active.None?
    ensures Lifecycle(FinishedDisconnected(s))
  {
    var idle := s.(link := s.link.(attempt := None, active := None, retry := None, closing := None, terminal := false),
                   pump := s.pump.(pending := None));
    forall g: nat ensures Recorded(idle, g) {
      assert Recorded(s, g);
    }
    if s.link.wanted { StartedLifecycle(idle, Fresh); }
  }

  lemma CloseSettledLifecycle(s: State, closing: Closing)
    requires Ledger(s) && s.link.attempt.None? && s.link.active.None? && s.link.retry.None?
    ensures Lifecycle(CloseSettled(s, closing))
  {
    var t := s.(link := s.link.(closing := None));
    var u := s.(link := s.link.(closing := Some(closing)));
    forall g: nat ensures Recorded(t, g) && Recorded(u, g) {
      assert Recorded(s, g);
    }
    FinishedLifecycle(t);
  }

  lemma BegunCloseLifecycle(s: State)
    requires Ledger(s) && LinkOk(s.link.(wanted := true)) && !s.link.wanted
    ensures Lifecycle(BegunClose(s))
  {
    if s.link.closing.None? {
      forall g: nat ensures Recorded(Ending(s), g) {
        assert Recorded(s, g);
        if s.link.attempt.Some? { assert Recorded(s, s.link.attempt.value.generation); }
      }
      CloseSettledLifecycle(Ending(s),
        Closing(GenerationsOf(s.link), NextOperations(s.ids.operations, DeletesOf(s.link))));
    }
  }

  lemma DesiredLifecycle(s: State, wanted: bool, changed: bool)
    requires Lifecycle(s)
    ensures Lifecycle(Desired(s, wanted, changed))
  {
    var t := s.(link := s.link.(wanted := wanted));
    forall g: nat ensures Recorded(t, g) {
      assert Recorded(s, g);
    }
    if !wanted {
      BegunCloseLifecycle(t);
    } else if CanBegin(t.link) {
      StartedLifecycle(t, Fresh);
    } else {
      OnlyIds(t, Requested(t));
    }
  }

  // ---- activation

  lemma SignaledLifecycle(s: State, outcome: Outcome)
    requires Lifecycle(s)
    ensures Lifecycle(Signaled(s, outcome))
  {
    if s.link.active.Some? && !s.link.active.value.fenced {
      if outcome.TransientClose? {
        FencedLifecycle(s);
        StartedLifecycle(Fenced(s), Replacement);
      } else if !outcome.Fine? {
        FailedTerminalLifecycle(s, false);
      }
    }
  }

  lemma {:induction false} SignaledAllLifecycle(s: State, early: seq<Outcome>)
    requires Lifecycle(s)
    ensures Lifecycle(SignaledAll(s, early))
    decreases |early|
  {
    if early != [] {
      SignaledLifecycle(s, early[0]);
      SignaledAllLifecycle(Signaled(s, early[0]), early[1..]);
    }
  }

  lemma ReplacedLifecycle(s: State, a: Attempt)
    requires Lifecycle(s) && s.link.attempt == Some(a) && a.resources.Some?
    ensures Lifecycle(Replaced(s, a))
  {
    assert Recorded(s, a.generation);
    forall g: nat ensures Recorded(Replaced(s, a), g) {
      assert Recorded(s, g);
    }
  }

  lemma ChangedLifecycle(s: State, a: Attempt)
    requires Lifecycle(s) && s.link.attempt.Some? && s.link.attempt.value.generation == a.generation
    ensures Lifecycle(Changed(s, a))
  {
    forall g: nat ensures Recorded(Changed(s, a), g) {
      assert Recorded(s, g);
    }
  }

  lemma StrandedLifecycle(s: State, a: Attempt)
    requires Lifecycle(s) && s.link.attempt == Some(a) && Ready(a) && !a.candidate.value.participantValid
    ensures Lifecycle(Activated(s)) && !Stranded(s, a.generation) && Stranded(Activated(s), a.generation)
  {
    assert Recorded(s, a.generation);
    forall g: nat ensures Recorded(Activated(s), g) {
      assert Recorded(s, g);
    }
  }

  lemma ActivatedLifecycle(s: State)
    requires Lifecycle(s)
    ensures Lifecycle(Activated(s))
  {
    if s.link.attempt.Some? && Ready(s.link.attempt.value) {
      var a := s.link.attempt.value;
      if a.candidate.value.participantValid {
        ReplacedLifecycle(s, a);
        SignaledAllLifecycle(Replaced(s, a), a.early);
      } else {
        StrandedLifecycle(s, a);
      }
    }
  }

  /**
   * A session closed by the server is replaced without looking for an attempt in
   * progress, which is harmless exactly when there is none.
   */
  lemma ServerCloseKeepsLedger(s: State)
    requires Ledger(s) && !s.link.terminal && s.link.active.Some? && !s.link.active.value.fenced
    ensures Ledger(Signaled(s, TransientClose)) <==> s.link.attempt.None?
  {
    var t := Signaled(s, TransientClose);
    if s.link.attempt.None? {
      forall g: nat ensures Recorded(t, g) {
        assert Recorded(s, g);
      }
    } else {
      assert Recorded(s, s.link.attempt.value.generation) && Recorded(s, s.ids.generations);
      assert !Recorded(t, s.link.attempt.value.generation);
    }
  }

  // ---- every event

  lemma OnlyIds(s: State, t: State)
    requires Lifecycle(s) && t.link == s.link && t.ids.generations == s.ids.generations
    requires t.traffic.closes == s.traffic.closes && t.traffic.stranded == s.traffic.stranded
    ensures Lifecycle(t)
  {
    forall g: nat ensures Recorded(t, g) {
      assert Recorded(s, g);
    }
  }

  /** Changing a session's channels, or fencing it, keeps the lifecycle. */
  lemma SessionLifecycle(s: State, a: Session, t: State)
    requires Lifecycle(s) && s.link.active.Some? && s.link.active.value.generation == a.generation && RoutesOk(a)
    requires s.link.active.value.fenced ==> a.fenced
    requires t.link == s.link.(active := Some(a)) && t.ids == s.ids && t.traffic == s.traffic
    ensures Lifecycle(t)
  {
    forall g: nat ensures Recorded(t, g) {
      assert Recorded(s, g);
    }
  }

  lemma UnroutedLifecycle(s: State)
    requires Lifecycle(s)
    ensures Lifecycle(Unrouted(s))
  {
    if s.link.active.Some? { SessionLifecycle(s, s.link.active.value.(routes := {}), Unrouted(s)); }
  }

  /** A closed channel that a topic ran over is one of the session's payload channels: it never starts a replacement. */
  lemma TopicsRunOverPayloads(s: State, generation: nat, channel: nat)
    requires Lifecycle(s) && Belongs(s, generation) && channel in s.link.active.value.routes
    requires !Candidates(s, generation, channel)
    ensures channel in s.link.active.value.payloads && channel != s.link.active.value.channel
    ensures ChannelClosed(s, generation, channel).link.attempt == s.link.attempt
    ensures Lifecycle(ChannelClosed(s, generation, channel))
  {
    var a := s.link.active.value;
    assert RoutesOk(a);
    SessionLifecycle(s, Lacking(a, channel).(routes := a.routes - {channel}), ChannelClosed(s, generation, channel));
  }

  lemma OwnSessionOnly(s: State, generation: nat, channel: nat)
    requires Ledger(s) && Candidates(s, generation, channel)
    ensures Missing(s, generation, channel) == s
  {
    assert Recorded(s, generation);
  }

  lemma ChannelClosedLifecycle(s: State, generation: nat, channel: nat)
    requires Lifecycle(s)
    ensures Lifecycle(ChannelClosed(s, generation, channel))
  {
    if Candidates(s, generation, channel) {
      OwnSessionOnly(s, generation, channel);
      FailedAttemptLifecycle(s, true);
    } else if Belongs(s, generation) {
      var a := s.link.active.value;
      if channel in a.routes {
        TopicsRunOverPayloads(s, generation, channel);
      } else {
        var t := Missing(s, generation, channel);
        SessionLifecycle(s, Lacking(a, channel), t);
        if a.channel == channel && CanReplace(s.link) {
          UnroutedLifecycle(t);
          StartedLifecycle(Unrouted(t), Replacement);
        }
      }
    }
  }

  predicate PayloadEvent(event: Event) {
    event.CreatePayload? || event.DrainPayload? || event.ReleasePayload? || event.InstallTopic? || event.DetachTopic?
  }

  lemma PayloadLifecycle(s: State, event: Event)
    requires Lifecycle(s) && PayloadEvent(event)
    ensures Lifecycle(Step(s, event))
  {
    var t := Step(s, event);
    if t != s { SessionLifecycle(s, t.link.active.value, t); }
  }

  lemma PumpedLifecycle(s: State, offer: Offer)
    requires Lifecycle(s)
    ensures Lifecycle(Pumped(s, offer))
  {
    if offer.Broken? {
      FailedTerminalLifecycle(s, false);
    }
    if Pumped(s, offer).link == s.link {
      OnlyIds(s, Pumped(s, offer));
    }
  }

  lemma FiredLifecycle(s: State, timer: nat, offer: Offer)
    requires Lifecycle(s)
    ensures Lifecycle(Fired(s, timer, offer))
  {
    if s.link.retry.Some? && s.link.retry.value.timer == timer {
      var t := s.(link := s.link.(retry := None));
      forall g: nat ensures Recorded(t, g) {
        assert Recorded(s, g);
      }
      StartedLifecycle(t, s.link.retry.value.style);
    } else if s.pump.wake == Some(timer) {
      var t := s.(pump := s.pump.(wake := None));
      OnlyIds(s, t);
      PumpedLifecycle(t, offer);
    } else {
      OnlyIds(s, Fired(s, timer, offer));
    }
  }

  lemma RepliedLifecycle(s: State, operation: nat, reply: Reply)
    requires Lifecycle(s)
    ensures Lifecycle(Replied(s, operation, reply))
  {
    if s.link.closing.Some? && operation in s.link.closing.value.deletes {
      CloseSettledLifecycle(s, s.link.closing.value.(deletes := s.link.closing.value.deletes - {operation}));
    } else if s.link.attempt.Some? && s.link.attempt.value.request == Some(operation)
              && s.link.attempt.value.stage == Requesting {
      if reply.Refused? {
        FailedAttemptLifecycle(s, reply.transient);
      } else {
        ChangedLifecycle(s, s.link.attempt.value.(stage := Applying, request := None,
          candidate := Some(reply.candidate)));
      }
    }
  }

  lemma ChangedActivated(s: State, a: Attempt)
    requires Lifecycle(s) && s.link.attempt.Some? && s.link.attempt.value.generation == a.generation
    ensures Lifecycle(Changed(s, a)) && Lifecycle(Activated(Changed(s, a)))
  {
    ChangedLifecycle(s, a);
    ActivatedLifecycle(Changed(s, a));
  }

  predicate AttemptEvent(event: Event) {
    event.CreatedOffer? || event.AnswerApplied? || event.TransportConnected? || event.Rejected? || event.Open?
  }

  lemma AttemptEventLifecycle(s: State, event: Event)
    requires Lifecycle(s) && AttemptEvent(event)
    ensures Lifecycle(Step(s, event))
  {
    if s.link.attempt.Some? {
      var a := s.link.attempt.value;
      match event
      case CreatedOffer(_, resources) =>
        var b := a.(stage := Requesting, resources := Some(resources), request := Some(s.ids.operations));
        ChangedLifecycle(s, b);
        OnlyIds(Changed(s, b), Changed(s, b).(ids := s.ids.(operations := s.ids.operations + 1)));
      case AnswerApplied(_) => ChangedActivated(s, a.(answered := true));
      case TransportConnected(_) => ChangedActivated(s, a.(transport := true));
      case Rejected(_) => FailedAttemptLifecycle(s, false);
      case Open(_, channel) =>
        ChangedActivated(s, a.(signalingOpen := true));
        ChangedActivated(s, a.(openChannels := a.openChannels + {channel}));
    }
  }

  lemma ReceivedLifecycle(s: State, generation: nat, channel: nat, outcome: Outcome)
    requires Lifecycle(s)
    ensures Lifecycle(Received(s, generation, channel, outcome))
  {
    if s.link.attempt.Some? {
      FailedAttemptLifecycle(s, true);
      ChangedLifecycle(s, s.link.attempt.value.(early := s.link.attempt.value.early + [outcome]));
    }
    SignaledLifecycle(s, outcome);
  }

  lemma StepLifecycle(s: State, event: Event)
    requires Lifecycle(s)
    ensures Lifecycle(Step(s, event))
  {
    match event
    case Want(wanted, changed) => DesiredLifecycle(s, wanted, changed);
    case Reconnect => ReconnectedLifecycle(s);
    case CreatedOffer(_, _) => AttemptEventLifecycle(s, event);
    case Reply(operation, reply) => RepliedLifecycle(s, operation, reply);
    case RequestFailed(operation) =>
      FailedAttemptLifecycle(s, true);
      if s.link.closing.Some? {
        CloseSettledLifecycle(s, s.link.closing.value.(deletes := s.link.closing.value.deletes - {operation}));
      }
    case AnswerApplied(_) => AttemptEventLifecycle(s, event);
    case TransportConnected(_) => AttemptEventLifecycle(s, event);
    case Rejected(_) => AttemptEventLifecycle(s, event);
    case TransportLost(generation) => LostLifecycle(s, generation);
    case RtcClosed(generation) =>
      if s.link.closing.Some? {
        CloseSettledLifecycle(s, s.link.closing.value.(generations := s.link.closing.value.generations - {generation}));
      }
    case Open(_, _) => AttemptEventLifecycle(s, event);
    case Close(generation, channel) => ChannelClosedLifecycle(s, generation, channel);
    case CreatePayload(_) => PayloadLifecycle(s, event);
    case DrainPayload(_) => PayloadLifecycle(s, event);
    case ReleasePayload(_) => PayloadLifecycle(s, event);
    case InstallTopic(_) => PayloadLifecycle(s, event);
    case DetachTopic(_) => PayloadLifecycle(s, event);
    case Message(generation, channel, outcome) => ReceivedLifecycle(s, generation, channel, outcome);
    case Sent(_, _, _) => OnlyIds(s, Step(s, event));
    case SendFailed(_, _, _) => OnlyIds(s, Step(s, event));
    case Timer(timer, offer) => FiredLifecycle(s, timer, offer);
    case Nudge => OnlyIds(s, Step(s, event));
    case Issue(_, _) => OnlyIds(s, Step(s, event));
    case HostFailed(transient) => FailedTerminalLifecycle(s, transient);
  }

  /**
   * Over every run, attempts, retries, closing and failure exclude one another, and each generation
   * offered is the attempt, the session, closed once, or stranded by an unacceptable participant.
   */
  lemma {:induction false} RunLifecycle(events: seq<Event>)
    ensures Lifecycle(Run(events))
    decreases |events|
  {
    if events == [] {
      forall g: nat ensures Recorded(INITIAL, g) {
      }
    } else {
      RunLifecycle(events[..|events| - 1]);
      StepLifecycle(Run(events[..|events| - 1]), events[|events| - 1]);
    }
  }

  // ---- who is stranded

  /** The attempt after an event that brings it closer to activation. */
  function Advanced(s: State, event: Event): Option<Attempt> {
    if s.link.attempt.None? then None
    else
      var a := s.link.attempt.value;
      match event
      case AnswerApplied(generation) => if a.generation == generation then Some(a.(answered := true)) else None
      case TransportConnected(generation) => if a.generation == generation then Some(a.(transport := true)) else None
      case Open(generation, channel) =>
        if a.generation != generation || a.resources.None? then None
        else if a.resources.value.signaling == channel then Some(a.(signalingOpen := true))
        else if channel in a.resources.value.channels then Some(a.(openChannels := a.openChannels + {channel}))
        else None
      case _ => None
  }

  /** The event completes an attempt whose participant is not acceptable. */
  predicate Strands(s: State, event: Event) {
    var a := Advanced(s, event);
    a.Some? && Ready(a.value) && !a.value.candidate.value.participantValid
  }

  lemma SignaledStrandsNobody(s: State, outcome: Outcome)
    ensures Signaled(s, outcome).traffic.stranded == s.traffic.stranded
  {
  }

  lemma {:induction false} SignaledAllStrandsNobody(s: State, early: seq<Outcome>)
    ensures SignaledAll(s, early).traffic.stranded == s.traffic.stranded
    decreases |early|
  {
    if early != [] {
      SignaledStrandsNobody(s, early[0]);
      SignaledAllStrandsNobody(Signaled(s, early[0]), early[1..]);
    }
  }

  lemma ActivatedStrands(s: State, a: Attempt)
    requires s.link.attempt == Some(a)
    ensures Activated(s).traffic.stranded ==
      if Ready(a) && !a.candidate.value.participantValid then s.traffic.stranded + {a.generation}
        else s.traffic.stranded
  {
    if Ready(a) && a.candidate.value.participantValid {
      SignaledAllStrandsNobody(Replaced(s, a), a.early);
    }
  }

  lemma StrandedStep(s: State, event: Event)
    ensures Step(s, event).traffic.stranded ==
      if Strands(s, event) then s.traffic.stranded + {s.link.attempt.value.generation} else s.traffic.stranded
  {
    if Advanced(s, event).Some? {
      ActivatedStrands(Changed(s, Advanced(s, event).value), Advanced(s, event).value);
    } else if event.Message? {
      SignaledStrandsNobody(s, event.outcome);
    }
  }

  ghost predicate NeverStrands(events: seq<Event>) {
    forall i | 0 <= i < |events| :: !Strands(Run(events[..i]), events[i])
  }

  lemma NeverStrandsLast(events: seq<Event>, before: seq<Event>, last: Event)
    requires events == before + [last]
    ensures NeverStrands(events) <==> NeverStrands(before) && !Strands(Run(before), last)
  {
    assert forall i | 0 <= i < |before| :: events[..i] == before[..i] && events[i] == before[i];
    assert events[..|before|] == before && events[|before|] == last;
  }

  lemma {:induction false} StrandedExactly(events: seq<Event>)
    ensures Run(events).traffic.stranded == {} <==> NeverStrands(events)
    decreases |events|
  {
    if events != [] {
      var before, last := events[..|events| - 1], events[|events| - 1];
      StrandedExactly(before);
      StrandedStep(Run(before), last);
      NeverStrandsLast(events, before, last);
    }
  }

  /**
   * Over every run no generation is lost if and only if no event completes an attempt
   * whose participant is not acceptable.
   */
  lemma AccountedExactly(events: seq<Event>)
    ensures Accounted(Run(events)) <==> NeverStrands(events)
  {
    var s := Run(events);
    RunLifecycle(events);
    StrandedExactly(events);
    if s.traffic.stranded == {} {
      forall g: nat ensures OwnedOnce(s, g) {
        assert Recorded(s, g);
      }
    } else {
      var g :| g in s.traffic.stranded;
      assert Recorded(s, g) && !OwnedOnce(s, g);
    }
  }

  // ---- a stranded agent

  lemma RunLast(events: seq<Event>, last: Event)
    ensures Run(events + [last]) == Step(Run(events), last)
  {
    assert (events + [last])[..|events|] == events;
  }

  function Dialling(attempt: Attempt, operations: nat): State {
    State(Link(true, Some(attempt), None, None, None, false), Pump(None, None, None), Ids(1, operations, 0),
      INITIAL.traffic)
  }

  function Offered(): seq<Event> {
    [] + [Want(true, false)] + [CreatedOffer(0, Resources(7, {}))]
  }

  /** A first connection up to the point where only its signaling channel is still closed. */
  function Joining(participantValid: bool): seq<Event> {
    Offered() + [Reply(0, Accepted(Candidate(participantValid)))] + [AnswerApplied(0)] + [TransportConnected(0)]
  }

  function AlmostReady(participantValid: bool): Attempt {
    Attempt(0, Fresh, Applying, Some(Resources(7, {})), None, Some(Candidate(participantValid)), true, true, false,
      {}, [])
  }

  lemma OfferedState()
    ensures Run(Offered()) == Dialling(NewAttempt(0, Fresh).(stage := Requesting, resources := Some(Resources(7, {})),
      request := Some(0)), 1)
  {
    RunLast([], Want(true, false));
    RunLast([] + [Want(true, false)], CreatedOffer(0, Resources(7, {})));
  }

  lemma JoiningState(participantValid: bool)
    ensures Run(Joining(participantValid)) == Dialling(AlmostReady(participantValid), 1)
  {
    var reply, answer := Reply(0, Accepted(Candidate(participantValid))), AnswerApplied(0);
    OfferedState();
    RunLast(Offered(), reply);
    RunLast(Offered() + [reply], answer);
    RunLast(Offered() + [reply] + [answer], TransportConnected(0));
  }

  /**
   * A reply whose participant is not acceptable strands the agent: wanted, yet nothing in progress
   * and nothing closed.
   */
  lemma UnacceptableParticipantStrands()
    ensures var s := Run(Joining(false) + [Open(0, 7)]);
      && s.link.wanted && s.link.attempt.None? && s.link.active.None? && s.link.retry.None? && !s.link.terminal
      && s.ids.generations == 1 && s.traffic.closes[0] == 0
  {
    JoiningState(false);
    RunLast(Joining(false), Open(0, 7));
  }
}
