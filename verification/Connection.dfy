/**
 * The agent's connection: one attempt, one active session, one retry, one close
 * in progress, and the pump that carries control frames to the active session.
 */
module Connection {
  import opened Basics

  type Frame = seq<nat>

  datatype Style = Fresh | Replacement

  datatype Stage = Offering | Requesting | Applying

  datatype Resources = Resources(signaling: nat, channels: set<nat>)

  /** What a message on the signaling channel turns out to mean. */
  datatype Outcome = Fine | TransientClose | TerminalClose | Malformed

  datatype Candidate = Candidate(participantValid: bool)

  datatype Attempt = Attempt(generation: nat, style: Style, stage: Stage, resources: Option<Resources>,
                             request: Option<nat>, candidate: Option<Candidate>, answered: bool, transport: bool,
                             signalingOpen: bool, openChannels: set<nat>, early: seq<Outcome>)

  /** A payload channel, from its creation to its release. */
  datatype Payload = Usable | Draining | Shut

  /** `routes` are the channels the topics of this session run over. */
  datatype Session = Session(generation: nat, channel: nat, fenced: bool, payloads: map<nat, Payload>, routes: set<nat>)

  datatype Retry = Retry(timer: nat, style: Style)

  datatype Closing = Closing(generations: set<nat>, deletes: set<nat>)

  datatype Pending = Pending(operation: nat, generation: nat, channel: nat, frame: Frame, retrying: bool)

  datatype Link = Link(wanted: bool, attempt: Option<Attempt>, active: Option<Session>, retry: Option<Retry>,
                       closing: Option<Closing>, terminal: bool)

  datatype Pump = Pump(pending: Option<Pending>, signalRetry: Option<nat>, wake: Option<nat>)

  datatype Ids = Ids(generations: nat, operations: nat, timers: nat)

  datatype Sending = Sending(operation: nat, index: nat, frame: Frame)

  /**
   * What the outside sees: `closes` counts the Close effects of each generation and `stranded` holds
   * the generations lost to an unacceptable participant; the rest is the active session's control
   * traffic. Operations are completed once each, delivered or rejected.
   */
  datatype Traffic = Traffic(closes: multiset<nat>, stranded: set<nat>, produced: seq<Frame>, acked: nat,
                             sends: seq<Sending>, completed: set<nat>, delivered: set<nat>)

  datatype State = State(link: Link, pump: Pump, ids: Ids, traffic: Traffic)

  const INITIAL := State(Link(false, None, None, None, None, false), Pump(None, None, None), Ids(0, 0, 0),
                         Traffic(multiset{}, {}, [], 0, [], {}, {}))

  const MAX_EARLY: nat := 64

  // ---- attempts

  function Closed(t: Traffic, generation: nat): Traffic {
    t.(closes := t.closes[generation := t.closes[generation] + 1])
  }

  function NewAttempt(generation: nat, style: Style): Attempt {
    Attempt(generation, style, Offering, None, None, None, false, false, false, {}, [])
  }

  /** Starts an attempt with a new generation; a terminal failure forbids it. */
  function Started(s: State, style: Style): State {
    if s.link.terminal then s
    else s.(link := s.link.(attempt := Some(NewAttempt(s.ids.generations, style))),
            ids := s.ids.(generations := s.ids.generations + 1))
  }

  /** Stops control traffic to the active session for good. */
  function Fenced(s: State): State {
    s.(link := s.link.(active := if s.link.active.Some? then Some(s.link.active.value.(fenced := true, routes := {}))
                                 else None),
       pump := Pump(None, None, None))
  }

  function RetryScheduled(s: State, style: Style): State {
    s.(link := s.link.(retry := Some(Retry(s.ids.timers, style))), ids := s.ids.(timers := s.ids.timers + 1))
  }

  /** A terminal failure with no attempt in progress. */
  function Halted(s: State): State {
    if s.link.terminal then s
    else
      var f := if s.link.active.Some? then Fenced(s) else s.(pump := s.pump.(pending := None, signalRetry := None));
      f.(link := f.link.(retry := None, terminal := true))
  }

  function FailedAttempt(s: State, transient: bool): State {
    if s.link.attempt.None? then s
    else
      var freed := s.(link := s.link.(attempt := None), pump := s.pump.(pending := None),
                      traffic := Closed(s.traffic, s.link.attempt.value.generation));
      if transient then RetryScheduled(freed, s.link.attempt.value.style) else Halted(freed)
  }

  function FailedTerminal(s: State, transient: bool): State {
    if s.link.terminal then s
    else if s.link.attempt.Some? then FailedAttempt(s, transient)
    else Halted(s)
  }

  /** The failure of a candidate leads to a retry, the failure of the active session to a replacement. */
  function Lost(s: State, generation: nat): State {
    if s.link.attempt.Some? && s.link.attempt.value.generation == generation then FailedAttempt(s, true)
    else if s.link.active.Some? && s.link.active.value.generation == generation then
      var f := Fenced(s);
      if f.link.wanted && !f.link.terminal && f.link.attempt.None? && f.link.retry.None? then Started(f, Replacement)
        else f
    else s
  }

  function Reconnected(s: State): State {
    if !s.link.wanted || s.link.closing.Some? || s.link.attempt.Some? then s
    else
      var r := s.(link := s.link.(retry := None, terminal := false));
      if r.link.active.Some? then Started(Fenced(r), Replacement) else Started(r, Fresh)
  }

  // ---- closing

  function FinishedDisconnected(s: State): State {
    var idle := s.(link := s.link.(attempt := None, active := None, retry := None, closing := None, terminal := false),
                   pump := s.pump.(pending := None));
    if s.link.wanted then Started(idle, Fresh) else idle
  }

  function GenerationsOf(link: Link): set<nat> {
    (if link.attempt.Some? then {link.attempt.value.generation} else {})
    + (if link.active.Some? then {link.active.value.generation} else {})
  }

  /** How many server resources a close still has to delete. */
  function DeletesOf(link: Link): nat {
    (if link.attempt.Some? && link.attempt.value.candidate.Some? then 1 else 0) + if link.active.Some? then 1 else 0
  }

  function NextOperations(first: nat, n: nat): set<nat> {
    if n == 0 then {} else NextOperations(first, n - 1) + {first + n - 1}
  }

  function ClosesAfter(s: State): multiset<nat> {
    var c := if s.link.attempt.Some? then Closed(s.traffic, s.link.attempt.value.generation) else s.traffic;
    if s.link.active.Some?
      && (s.link.attempt.Some? ==> s.link.attempt.value.generation != s.link.active.value.generation)
    then Closed(c, s.link.active.value.generation).closes
    else c.closes
  }

  /** Everything in progress is closed; what remains is to wait for it. */
  function Ending(s: State): State {
    s.(link := s.link.(attempt := None, active := None, retry := None),
       pump := Pump(None, None, None),
       ids := s.ids.(operations := s.ids.operations + DeletesOf(s.link)),
       traffic := s.traffic.(closes := ClosesAfter(s)))
  }

  function BegunClose(s: State): State {
    if s.link.closing.Some? then s
    else CloseSettled(Ending(s), Closing(GenerationsOf(s.link), NextOperations(s.ids.operations, DeletesOf(s.link))))
  }

  function CloseSettled(s: State, closing: Closing): State {
    if closing.generations == {} && closing.deletes == {}
      then FinishedDisconnected(s.(link := s.link.(closing := None)))
    else s.(link := s.link.(closing := Some(closing)))
  }

  // ---- desired state

  predicate CanBegin(link: Link) {
    link.closing.None? && link.attempt.None? && link.retry.None? && !link.terminal && link.active.None?
  }

  /** `changed` tells that what the session should carry is not what was staged. */
  function Desired(s: State, wanted: bool, changed: bool): State {
    var t := s.(link := s.link.(wanted := wanted));
    if !wanted then BegunClose(t)
    else if CanBegin(t.link) then Started(t, Fresh)
    else if changed then Requested(t)
    else t
  }

  // ---- activation

  predicate Ready(a: Attempt) {
    && a.candidate.Some? && a.resources.Some? && a.answered && a.transport && a.signalingOpen
    && a.resources.value.channels <= a.openChannels
  }

  /** A message on the active session's signaling channel. */
  function Signaled(s: State, outcome: Outcome): State {
    if s.link.active.None? || s.link.active.value.fenced then s
    else
      match outcome
      case Fine => s
      case TransientClose => Started(Fenced(s), Replacement)
      case TerminalClose => FailedTerminal(s, false)
      case Malformed => FailedTerminal(s, false)
  }

  /** The messages that arrived before activation, in order, until one is malformed. */
  function SignaledAll(s: State, early: seq<Outcome>): State
    decreases |early|
  {
    if early == [] then s
    else
      var t := Signaled(s, early[0]);
      if Rejects(s, early[0]) then t else SignaledAll(t, early[1..])
  }

  /** The session is there to find the message malformed. */
  predicate Rejects(s: State, outcome: Outcome) {
    outcome.Malformed? && s.link.active.Some? && !s.link.active.value.fenced
  }

  /** None of the messages is found malformed. */
  predicate Digests(s: State, early: seq<Outcome>)
    decreases |early|
  {
    early == [] || (!Rejects(s, early[0]) && Digests(Signaled(s, early[0]), early[1..]))
  }

  /** The candidate takes the place of the active session, which is closed. */
  function Replaced(s: State, a: Attempt): State
    requires a.resources.Some?
  {
    s.(link := s.link.(attempt := None,
      active := Some(Session(a.generation, a.resources.value.signaling, false, map[], {}))),
       pump := s.pump.(pending := None, signalRetry := None),
       traffic := (if s.link.active.Some? && s.link.active.value.generation != a.generation
                   then Closed(s.traffic, s.link.active.value.generation) else s.traffic)
                  .(produced := [], acked := 0, sends := []))
  }

  /** Takes the attempt first and only then finds out whether the participant is acceptable. */
  function Activated(s: State): State {
    if s.link.attempt.None? || !Ready(s.link.attempt.value) then s
    else
      var a := s.link.attempt.value;
      if !a.candidate.value.participantValid then
        s.(link := s.link.(attempt := None), traffic := s.traffic.(stranded := s.traffic.stranded + {a.generation}))
      else SignaledAll(Replaced(s, a), a.early)
  }

  function Changed(s: State, a: Attempt): State {
    s.(link := s.link.(attempt := Some(a)))
  }

  // ---- the pump

  /** Wakes the pump unless it is awake or has nobody to talk to. */
  function Requested(s: State): State {
    if s.pump.wake.Some? || s.link.terminal || s.link.closing.Some? || s.link.active.None?
      || s.link.active.value.fenced then s
    else s.(pump := s.pump.(wake := Some(s.ids.timers)), ids := s.ids.(timers := s.ids.timers + 1))
  }

  /** What the reconciler has to say when asked. */
  datatype Offer = Nothing | Next(frame: Frame) | Broken

  function SentAgain(s: State, p: Pending): State {
    s.(pump := s.pump.(pending := Some(p.(operation := s.ids.operations, retrying := false))),
       ids := s.ids.(operations := s.ids.operations + 1),
       traffic := s.traffic.(sends := s.traffic.sends + [Sending(s.ids.operations, s.traffic.acked, p.frame)]))
  }

  function SentNew(s: State, active: Session, frame: Frame): State {
    s.(pump := s.pump.(pending := Some(Pending(s.ids.operations, active.generation, active.channel, frame, false))),
       ids := s.ids.(operations := s.ids.operations + 1),
       traffic := s.traffic.(produced := s.traffic.produced + [frame],
                             sends := s.traffic.sends + [Sending(s.ids.operations, |s.traffic.produced|, frame)]))
  }

  function Pumped(s: State, offer: Offer): State {
    if s.link.terminal || s.link.closing.Some? || s.link.active.None? || s.link.active.value.fenced then s
    else if s.pump.signalRetry.Some? then s
    else if s.pump.pending.Some? then
      if s.pump.pending.value.retrying then SentAgain(s, s.pump.pending.value) else s
    else
      match offer
      case Nothing => s
      case Broken => FailedTerminal(s, false)
      case Next(frame) => SentNew(s, s.link.active.value, frame)
  }

  predicate Correlates(s: State, operation: nat, generation: nat, channel: nat) {
    && s.pump.pending.Some?
    && s.pump.pending.value.operation == operation
    && s.pump.pending.value.generation == generation
    && s.pump.pending.value.channel == channel
  }

  function Completing(s: State, operation: nat): State {
    s.(traffic := s.traffic.(completed := s.traffic.completed + {operation}))
  }

  function HostSent(s: State, operation: nat, generation: nat, channel: nat): State {
    var t := Completing(s, operation);
    if !Correlates(s, operation, generation, channel) then t
    else
      Requested(t.(pump := t.pump.(pending := None),
                   traffic := t.traffic.(acked := t.traffic.acked + 1, delivered := t.traffic.delivered + {operation})))
  }

  function HostRejected(s: State, operation: nat, generation: nat, channel: nat): State {
    var t := Completing(s, operation);
    if !Correlates(s, operation, generation, channel) then t
    else
      var r := t.(pump := t.pump.(pending := Some(t.pump.pending.value.(retrying := true))));
      if r.pump.signalRetry.Some? || r.link.active.None? then r
      else r.(pump := r.pump.(signalRetry := Some(r.ids.timers)), ids := r.ids.(timers := r.ids.timers + 1))
  }

  function Fired(s: State, timer: nat, offer: Offer): State {
    if s.link.retry.Some? && s.link.retry.value.timer == timer then
      var t := s.(link := s.link.(retry := None));
      if s.link.wanted then Started(t, s.link.retry.value.style) else t
    else if s.pump.wake == Some(timer) then Pumped(s.(pump := s.pump.(wake := None)), offer)
    else if s.pump.signalRetry == Some(timer) then Requested(s.(pump := s.pump.(signalRetry := None)))
    else s
  }

  // ---- channels

  function ChannelOpened(s: State, generation: nat, channel: nat): State {
    if s.link.attempt.None? || s.link.attempt.value.generation != generation || s.link.attempt.value.resources.None?
      then s
    else
      var a := s.link.attempt.value;
      if a.resources.value.signaling == channel then Activated(Changed(s, a.(signalingOpen := true)))
      else if channel in a.resources.value.channels
        then Activated(Changed(s, a.(openChannels := a.openChannels + {channel})))
      else s
  }

  predicate Candidates(s: State, generation: nat, channel: nat) {
    && s.link.attempt.Some? && s.link.attempt.value.generation == generation && s.link.attempt.value.resources.Some?
    && (s.link.attempt.value.resources.value.signaling == channel
      || channel in s.link.attempt.value.resources.value.channels)
  }

  function WithSession(s: State, a: Session): State {
    s.(link := s.link.(active := Some(a)))
  }

  /** The transport of the topics goes with the session it ran over. */
  function Unrouted(s: State): State {
    if s.link.active.None? then s else WithSession(s, s.link.active.value.(routes := {}))
  }

  /** The session after one of its channels closed: a payload channel is shut, the signaling channel fences it. */
  function Lacking(a: Session, channel: nat): Session {
    a.(fenced := a.fenced || a.channel == channel,
       payloads := if channel in a.payloads then a.payloads[channel := Shut] else a.payloads)
  }

  predicate CanReplace(link: Link) {
    link.wanted && link.attempt.None? && link.retry.None?
  }

  predicate Belongs(s: State, generation: nat) {
    s.link.active.Some? && s.link.active.value.generation == generation
  }

  /** The active session lacks the channel from now on. */
  function Missing(s: State, generation: nat, channel: nat): State {
    if !Belongs(s, generation) then s
    else
      WithSession(s, Lacking(s.link.active.value, channel))
      .(pump := if s.link.active.value.channel == channel then s.pump.(wake := None) else s.pump)
  }

  function ChannelClosed(s: State, generation: nat, channel: nat): State {
    var t := Missing(s, generation, channel);
    if Candidates(s, generation, channel) then FailedAttempt(t, true)
    else if !Belongs(s, generation) then t
    else
      var a := s.link.active.value;
      if a.channel == channel && CanReplace(s.link) then Started(Unrouted(t), Replacement)
      else if channel !in a.routes then t
      else
        var u := WithSession(t, t.link.active.value.(routes := a.routes - {channel}));
        if channel !in a.payloads && CanReplace(s.link) then Started(Unrouted(u), Replacement) else u
  }

  // ---- payload channels and the topics on them

  function PayloadCreated(s: State, channel: nat): State {
    if s.link.active.None? || s.link.active.value.fenced then s
    else
      var a := s.link.active.value;
      if channel == a.channel || channel in a.payloads then s
      else WithSession(s, a.(payloads := a.payloads[channel := Usable]))
  }

  function PayloadDrained(s: State, channel: nat): State {
    if s.link.active.None? then s
    else
      var a := s.link.active.value;
      if channel in a.payloads && a.payloads[channel].Usable?
      then WithSession(s, a.(payloads := a.payloads[channel := Draining])) else s
  }

  /** Only a shut payload channel is released. */
  function PayloadReleased(s: State, channel: nat): State {
    if s.link.active.None? then s
    else
      var a := s.link.active.value;
      if channel in a.payloads && a.payloads[channel].Shut?
        then WithSession(s, a.(payloads := a.payloads - {channel})) else s
  }

  /** Only a usable payload channel carries a topic. */
  function TopicInstalled(s: State, channel: nat): State {
    if s.link.active.None? || s.link.active.value.fenced then s
    else
      var a := s.link.active.value;
      if channel in a.payloads && a.payloads[channel].Usable? then WithSession(s, a.(routes := a.routes + {channel}))
        else s
  }

  function TopicDetached(s: State, channel: nat): State {
    if s.link.active.None? then s
    else WithSession(s, s.link.active.value.(routes := s.link.active.value.routes - {channel}))
  }

  function Received(s: State, generation: nat, channel: nat, outcome: Outcome): State {
    if s.link.attempt.Some? && s.link.attempt.value.generation == generation && s.link.attempt.value.resources.Some?
       && s.link.attempt.value.resources.value.signaling == channel
    then
      var a := s.link.attempt.value;
      if |a.early| == MAX_EARLY then FailedAttempt(s, true) else Changed(s, a.(early := a.early + [outcome]))
    else if s.link.active.None? || s.link.active.value.generation != generation
      || s.link.active.value.channel != channel then s
    else Signaled(s, outcome)
  }

  // ---- requests

  datatype Reply = Accepted(candidate: Candidate) | Refused(transient: bool)

  function OfferCreated(s: State, generation: nat, resources: Resources): State {
    if s.link.attempt.None? || s.link.attempt.value.generation != generation || s.link.attempt.value.stage != Offering
      then s
    else
      Changed(s, s.link.attempt.value.(stage := Requesting, resources := Some(resources),
        request := Some(s.ids.operations)))
      .(ids := s.ids.(operations := s.ids.operations + 1))
  }

  function Replied(s: State, operation: nat, reply: Reply): State {
    if s.link.closing.Some? && operation in s.link.closing.value.deletes then
      CloseSettled(s, s.link.closing.value.(deletes := s.link.closing.value.deletes - {operation}))
    else if s.link.attempt.Some? && s.link.attempt.value.request == Some(operation)
      && s.link.attempt.value.stage == Requesting then
      match reply
      case Refused(transient) => FailedAttempt(s, transient)
      case Accepted(candidate) =>
        Changed(s, s.link.attempt.value.(stage := Applying, request := None, candidate := Some(candidate)))
    else s
  }

  // ---- runs

  /** `Issue` stands for the numbers that topics, renewals and media take from the same counters. */
  datatype Event =
    | Want(wanted: bool, changed: bool)
    | Reconnect
    | CreatedOffer(generation: nat, resources: Resources)
    | Reply(operation: nat, reply: Reply)
    | RequestFailed(operation: nat)
    | AnswerApplied(generation: nat)
    | TransportConnected(generation: nat)
    | Rejected(generation: nat)
    | TransportLost(generation: nat)
    | RtcClosed(generation: nat)
    | Open(generation: nat, channel: nat)
    | Close(generation: nat, channel: nat)
    | CreatePayload(channel: nat)
    | DrainPayload(channel: nat)
    | ReleasePayload(channel: nat)
    | InstallTopic(channel: nat)
    | DetachTopic(channel: nat)
    | Message(generation: nat, channel: nat, outcome: Outcome)
    | Sent(operation: nat, generation: nat, channel: nat)
    | SendFailed(operation: nat, generation: nat, channel: nat)
    | Timer(timer: nat, offer: Offer)
    | Nudge
    | Issue(operations: nat, timers: nat)
    | HostFailed(transient: bool)

  function Step(s: State, event: Event): State {
    match event
    case Want(wanted, changed) => Desired(s, wanted, changed)
    case Reconnect => Reconnected(s)
    case CreatedOffer(generation, resources) => OfferCreated(s, generation, resources)
    case Reply(operation, reply) => Replied(s, operation, reply)
    case RequestFailed(operation) =>
      if s.link.closing.Some? && operation in s.link.closing.value.deletes then
        CloseSettled(s, s.link.closing.value.(deletes := s.link.closing.value.deletes - {operation}))
      else if s.link.attempt.Some? && s.link.attempt.value.request == Some(operation) then FailedAttempt(s, true)
      else s
    case AnswerApplied(generation) =>
      if s.link.attempt.Some? && s.link.attempt.value.generation == generation
      then Activated(Changed(s, s.link.attempt.value.(answered := true))) else s
    case TransportConnected(generation) =>
      if s.link.attempt.Some? && s.link.attempt.value.generation == generation
      then Activated(Changed(s, s.link.attempt.value.(transport := true))) else s
    case Rejected(generation) =>
      if s.link.attempt.Some? && s.link.attempt.value.generation == generation then FailedAttempt(s, false) else s
    case TransportLost(generation) => Lost(s, generation)
    case RtcClosed(generation) =>
      if s.link.closing.Some?
      then CloseSettled(s, s.link.closing.value.(generations := s.link.closing.value.generations - {generation})) else s
    case Open(generation, channel) => ChannelOpened(s, generation, channel)
    case Close(generation, channel) => ChannelClosed(s, generation, channel)
    case CreatePayload(channel) => PayloadCreated(s, channel)
    case DrainPayload(channel) => PayloadDrained(s, channel)
    case ReleasePayload(channel) => PayloadReleased(s, channel)
    case InstallTopic(channel) => TopicInstalled(s, channel)
    case DetachTopic(channel) => TopicDetached(s, channel)
    case Message(generation, channel, outcome) => Received(s, generation, channel, outcome)
    case Sent(operation, generation, channel) => HostSent(s, operation, generation, channel)
    case SendFailed(operation, generation, channel) => HostRejected(s, operation, generation, channel)
    case Timer(timer, offer) => Fired(s, timer, offer)
    case Nudge => Requested(s)
    case Issue(operations, timers) =>
      s.(ids := s.ids.(operations := s.ids.operations + operations, timers := s.ids.timers + timers))
    case HostFailed(transient) => FailedTerminal(s, transient)
  }

  function Run(events: seq<Event>): State {
    if events == [] then INITIAL else Step(Run(events[..|events| - 1]), events[|events| - 1])
  }
}
