/** Control frames reach the active session in order, one at a time, each exactly once. */
module ControlPump {
  import opened Basics
  import opened Connection
  import opened ConnectionInvariants

  /** Each send carries the produced frame of its index; a rejected frame goes out again before the next one. */
  ghost predicate SendsOk(t: Traffic) {
    && (forall i | 0 <= i < |t.sends| ::
          t.sends[i].index < |t.produced| && t.sends[i].frame == t.produced[t.sends[i].index])
    && (forall i | 0 <= i < |t.sends| - 1 ::
          && t.sends[i].operation in t.completed
          && t.sends[i + 1].index == t.sends[i].index + if t.sends[i].operation in t.delivered then 1 else 0)
    && (if t.sends == [] then t.acked == 0 && t.produced == []
        else
          var last := t.sends[|t.sends| - 1];
          t.sends[0].index == 0 && t.acked == last.index + if last.operation in t.delivered then 1 else 0)
  }

  ghost predicate PendingOk(a: Session, pump: Pump, t: Traffic) {
    if pump.pending.None? then
      |t.produced| == t.acked && (t.sends != [] ==> t.sends[|t.sends| - 1].operation in t.delivered)
    else
      var p := pump.pending.value;
      && |t.produced| == t.acked + 1 && t.sends != []
      && p.generation == a.generation && p.channel == a.channel && p.frame == t.produced[t.acked]
      && t.sends[|t.sends| - 1].operation == p.operation
      && p.operation !in t.delivered
      && (p.retrying <==> p.operation in t.completed)
      && (p.retrying ==> pump.signalRetry.Some? || pump.wake.Some?)
  }

  ghost predicate PumpOk(s: State) {
    && (forall operation | operation in s.traffic.completed :: operation < s.ids.operations)
    && s.traffic.delivered <= s.traffic.completed
    && (s.pump.pending.Some? ==> s.pump.pending.value.operation < s.ids.operations)
    && (s.link.active.Some? && !s.link.active.value.fenced ==>
          SendsOk(s.traffic) && PendingOk(s.link.active.value, s.pump, s.traffic))
  }

  ghost predicate Sound(s: State) {
    Lifecycle(s) && PumpOk(s)
  }

  /** A host completes an operation it was given, on the channel it was given for, and only once. */
  predicate Honest(s: State, event: Event) {
    event.Sent? || event.SendFailed? ==>
      && event.operation < s.ids.operations && event.operation !in s.traffic.completed
      && (s.pump.pending.Some? && s.pump.pending.value.operation == event.operation ==>
            Correlates(s, event.operation, event.generation, event.channel))
  }

  // ---- sending

  lemma SentNewOk(s: State, frame: Frame)
    requires Sound(s) && s.pump.pending.None? && s.link.active.Some? && !s.link.active.value.fenced
    ensures PumpOk(SentNew(s, s.link.active.value, frame))
  {
    var t := SentNew(s, s.link.active.value, frame);
    assert s.ids.operations !in s.traffic.completed;
    assert forall i | 0 <= i < |s.traffic.sends| :: t.traffic.sends[i] == s.traffic.sends[i];
  }

  lemma SentAgainOk(s: State)
    requires Sound(s) && s.pump.pending.Some? && s.pump.pending.value.retrying
    requires s.link.active.Some? && !s.link.active.value.fenced
    ensures PumpOk(SentAgain(s, s.pump.pending.value))
  {
    var t := SentAgain(s, s.pump.pending.value);
    assert s.ids.operations !in s.traffic.completed;
    assert forall i | 0 <= i < |s.traffic.sends| :: t.traffic.sends[i] == s.traffic.sends[i];
  }

  // ---- completions

  /** Completing an operation that is not the pending one touches no send of the current session. */
  lemma UnrelatedOk(s: State, operation: nat)
    requires PumpOk(s) && operation < s.ids.operations
    requires s.link.active.Some? && !s.link.active.value.fenced && s.pump.pending.Some? ==>
      s.pump.pending.value.operation != operation
    ensures PumpOk(Completing(s, operation))
  {
  }

  lemma DeliveredOk(s: State, operation: nat, generation: nat, channel: nat)
    requires PumpOk(s) && Correlates(s, operation, generation, channel) && operation !in s.traffic.completed
    ensures PumpOk(HostSent(s, operation, generation, channel))
  {
    var t := HostSent(s, operation, generation, channel);
    if s.link.active.Some? && !s.link.active.value.fenced {
      var sends := s.traffic.sends;
      forall i | 0 <= i < |sends| - 1
        ensures sends[i].operation in t.traffic.delivered <==> sends[i].operation in s.traffic.delivered
      {
        assert sends[i].operation in s.traffic.completed;
      }
    }
  }

  lemma RejectedOk(s: State, operation: nat, generation: nat, channel: nat)
    requires PumpOk(s) && Correlates(s, operation, generation, channel)
    ensures PumpOk(HostRejected(s, operation, generation, channel))
  {
  }

  // ---- connection events

  /** Nothing is claimed of a fenced or absent session. */
  lemma QuietOk(s: State, t: State)
    requires PumpOk(s) && t.ids.operations >= s.ids.operations
    requires t.traffic.completed == s.traffic.completed && t.traffic.delivered == s.traffic.delivered
    requires t.pump.pending.None? || t.pump.pending == s.pump.pending
    requires t.link.active.Some? ==> t.link.active.value.fenced
    ensures PumpOk(t)
  {
  }

  predicate SameSession(a: Option<Session>, b: Option<Session>) {
    b.Some? && !b.value.fenced ==>
      && a.Some? && !a.value.fenced
      && a.value.generation == b.value.generation && a.value.channel == b.value.channel
  }

  /** The session, its frames and its pending send are as before; only a wake-up may be added. */
  lemma SameOk(s: State, t: State)
    requires PumpOk(s) && t.ids.operations >= s.ids.operations
    requires t.traffic == s.traffic.(closes := t.traffic.closes, stranded := t.traffic.stranded)
    requires SameSession(s.link.active, t.link.active)
    requires t.pump.pending == s.pump.pending
    requires s.pump.signalRetry.Some? || s.pump.wake.Some? ==> t.pump.signalRetry.Some? || t.pump.wake.Some?
    ensures PumpOk(t)
  {
  }

  /** A failing attempt clears the pending frame: harmless, because the active session is then fenced. */
  lemma FailedAttemptOk(s: State, transient: bool)
    requires Sound(s)
    ensures PumpOk(FailedAttempt(s, transient))
  {
    if s.link.attempt.Some? { QuietOk(s, FailedAttempt(s, transient)); }
  }

  lemma FailedTerminalOk(s: State, transient: bool)
    requires Sound(s)
    ensures PumpOk(FailedTerminal(s, transient))
  {
    if !s.link.terminal {
      if s.link.attempt.Some? { FailedAttemptOk(s, transient); } else { QuietOk(s, Halted(s)); }
    }
  }

  lemma SignaledOk(s: State, outcome: Outcome)
    requires Sound(s)
    ensures PumpOk(Signaled(s, outcome))
  {
    if s.link.active.Some? && !s.link.active.value.fenced {
      if outcome.TransientClose? {
        QuietOk(s, Signaled(s, outcome));
      } else if !outcome.Fine? {
        FailedTerminalOk(s, false);
      }
    }
  }

  lemma {:induction false} SignaledAllOk(s: State, early: seq<Outcome>)
    requires Sound(s)
    ensures PumpOk(SignaledAll(s, early))
    decreases |early|
  {
    if early != [] {
      SignaledOk(s, early[0]);
      SignaledLifecycle(s, early[0]);
      SignaledAllOk(Signaled(s, early[0]), early[1..]);
    }
  }

  lemma ActivatedOk(s: State)
    requires Sound(s)
    ensures PumpOk(Activated(s))
  {
    if s.link.attempt.Some? && Ready(s.link.attempt.value) {
      var a := s.link.attempt.value;
      if a.candidate.value.participantValid {
        ReplacedLifecycle(s, a);
        SignaledAllOk(Replaced(s, a), a.early);
      } else {
        SameOk(s, Activated(s));
      }
    }
  }

  lemma ChangedOk(s: State, a: Attempt)
    requires Sound(s) && s.link.attempt.Some? && s.link.attempt.value.generation == a.generation
    ensures PumpOk(Changed(s, a)) && PumpOk(Activated(Changed(s, a)))
  {
    SameOk(s, Changed(s, a));
    ChangedLifecycle(s, a);
    ActivatedOk(Changed(s, a));
  }

  lemma PumpedOk(s: State, offer: Offer)
    requires Lifecycle(s) && PumpOk(s.(pump := s.pump.(wake := Some(0)))) && s.pump.wake.None?
    ensures PumpOk(Pumped(s, offer))
  {
    var w := s.(pump := s.pump.(wake := Some(0)));
    OnlyIds(s, w);
    if s.link.active.Some? && !s.link.active.value.fenced && !s.link.terminal && s.link.closing.None?
      && s.pump.signalRetry.None? {
      if s.pump.pending.Some? {
        if s.pump.pending.value.retrying {
          SentAgainOk(w);
        }
      } else if offer.Next? {
        SentNewOk(w, offer.frame);
      } else if offer.Broken? {
        FailedTerminalOk(w, false);
      }
    }
  }

  lemma FiredOk(s: State, timer: nat, offer: Offer)
    requires Sound(s)
    ensures PumpOk(Fired(s, timer, offer))
  {
    if s.link.retry.Some? && s.link.retry.value.timer == timer {
      SameOk(s, Fired(s, timer, offer));
    } else if s.pump.wake == Some(timer) {
      var t := s.(pump := s.pump.(wake := None));
      OnlyIds(s, t);
      SameOk(s, t.(pump := t.pump.(wake := Some(0))));
      PumpedOk(t, offer);
    } else if s.pump.signalRetry == Some(timer) {
      var t := Fired(s, timer, offer);
      if t.pump.wake.Some? { SameOk(s, t); } else { QuietOrIdle(s, t); }
    }
  }

  /** Without a wake-up the session is fenced, absent or failed: nothing is left to retry. */
  lemma QuietOrIdle(s: State, t: State)
    requires Sound(s) && t == Requested(s.(pump := s.pump.(signalRetry := None))) && t.pump.wake.None?
    ensures PumpOk(t)
  {
    QuietOk(s, t);
  }

  lemma LostOk(s: State, generation: nat)
    requires Sound(s)
    ensures PumpOk(Lost(s, generation))
  {
    if s.link.attempt.Some? && s.link.attempt.value.generation == generation {
      FailedAttemptOk(s, true);
    } else if s.link.active.Some? && s.link.active.value.generation == generation {
      QuietOk(s, Lost(s, generation));
    }
  }

  lemma ReconnectedOk(s: State)
    requires Sound(s)
    ensures PumpOk(Reconnected(s))
  {
    if s.link.wanted && s.link.closing.None? && s.link.attempt.None? {
      QuietOk(s, Reconnected(s));
    }
  }

  lemma DesiredOk(s: State, wanted: bool, changed: bool)
    requires Sound(s)
    ensures PumpOk(Desired(s, wanted, changed))
  {
    if !wanted {
      QuietOk(s, Desired(s, wanted, changed));
    } else {
      SameOk(s, Desired(s, wanted, changed));
    }
  }

  lemma SettledOk(s: State, closing: Closing)
    requires Sound(s) && s.link.closing.Some?
    ensures PumpOk(CloseSettled(s, closing))
  {
    QuietOk(s, CloseSettled(s, closing));
  }

  lemma ChannelClosedOk(s: State, generation: nat, channel: nat)
    requires Sound(s)
    ensures PumpOk(ChannelClosed(s, generation, channel))
  {
    if Candidates(s, generation, channel) {
      OwnSessionOnly(s, generation, channel);
      FailedAttemptOk(s, true);
    } else if Belongs(s, generation) {
      if s.link.active.value.channel == channel {
        QuietOk(s, ChannelClosed(s, generation, channel));
      } else {
        if channel in s.link.active.value.routes { TopicsRunOverPayloads(s, generation, channel); }
        SameOk(s, ChannelClosed(s, generation, channel));
      }
    }
  }

  lemma PayloadOk(s: State, event: Event)
    requires Sound(s) && PayloadEvent(event)
    ensures PumpOk(Step(s, event))
  {
    SameOk(s, Step(s, event));
  }

  lemma ReceivedOk(s: State, generation: nat, channel: nat, outcome: Outcome)
    requires Sound(s)
    ensures PumpOk(Received(s, generation, channel, outcome))
  {
    if s.link.attempt.Some? {
      FailedAttemptOk(s, true);
      SameOk(s, Changed(s, s.link.attempt.value.(early := s.link.attempt.value.early + [outcome])));
    }
    SignaledOk(s, outcome);
  }

  lemma AttemptEventOk(s: State, event: Event)
    requires Sound(s) && AttemptEvent(event)
    ensures PumpOk(Step(s, event))
  {
    if s.link.attempt.Some? {
      var a := s.link.attempt.value;
      match event
      case CreatedOffer(_, _) => SameOk(s, Step(s, event));
      case AnswerApplied(_) => ChangedOk(s, a.(answered := true));
      case TransportConnected(_) => ChangedOk(s, a.(transport := true));
      case Rejected(_) => FailedAttemptOk(s, false);
      case Open(_, channel) =>
        ChangedOk(s, a.(signalingOpen := true));
        ChangedOk(s, a.(openChannels := a.openChannels + {channel}));
    }
  }

  lemma ReplyOk(s: State, operation: nat, reply: Reply)
    requires Sound(s)
    ensures PumpOk(Replied(s, operation, reply))
  {
    if s.link.closing.Some? && operation in s.link.closing.value.deletes {
      SettledOk(s, s.link.closing.value.(deletes := s.link.closing.value.deletes - {operation}));
    } else if s.link.attempt.Some? && s.link.attempt.value.request == Some(operation)
      && s.link.attempt.value.stage == Requesting {
      if reply.Refused? { FailedAttemptOk(s, reply.transient); } else { SameOk(s, Replied(s, operation, reply)); }
    }
  }

  lemma CompletionOk(s: State, event: Event)
    requires Sound(s) && Honest(s, event) && (event.Sent? || event.SendFailed?)
    ensures PumpOk(Step(s, event))
  {
    if Correlates(s, event.operation, event.generation, event.channel) {
      if event.Sent? {
        DeliveredOk(s, event.operation, event.generation, event.channel);
      } else {
        RejectedOk(s, event.operation, event.generation, event.channel);
      }
    } else {
      UnrelatedOk(s, event.operation);
    }
  }

  lemma StepOk(s: State, event: Event)
    requires Sound(s) && Honest(s, event)
    ensures PumpOk(Step(s, event))
  {
    match event
    case Want(wanted, changed) => DesiredOk(s, wanted, changed);
    case Reconnect => ReconnectedOk(s);
    case CreatedOffer(_, _) => AttemptEventOk(s, event);
    case Reply(operation, reply) => ReplyOk(s, operation, reply);
    case RequestFailed(operation) =>
      FailedAttemptOk(s, true);
      if s.link.closing.Some? {
        SettledOk(s, s.link.closing.value.(deletes := s.link.closing.value.deletes - {operation}));
      }
    case AnswerApplied(_) => AttemptEventOk(s, event);
    case TransportConnected(_) => AttemptEventOk(s, event);
    case Rejected(_) => AttemptEventOk(s, event);
    case TransportLost(generation) => LostOk(s, generation);
    case RtcClosed(generation) =>
      if s.link.closing.Some? {
        SettledOk(s, s.link.closing.value.(generations := s.link.closing.value.generations - {generation}));
      }
    case Open(_, _) => AttemptEventOk(s, event);
    case Close(generation, channel) => ChannelClosedOk(s, generation, channel);
    case CreatePayload(_) => PayloadOk(s, event);
    case DrainPayload(_) => PayloadOk(s, event);
    case ReleasePayload(_) => PayloadOk(s, event);
    case InstallTopic(_) => PayloadOk(s, event);
    case DetachTopic(_) => PayloadOk(s, event);
    case Message(generation, channel, outcome) => ReceivedOk(s, generation, channel, outcome);
    case Sent(_, _, _) => CompletionOk(s, event);
    case SendFailed(_, _, _) => CompletionOk(s, event);
    case Timer(timer, offer) => FiredOk(s, timer, offer);
    case Nudge => SameOk(s, Step(s, event));
    case Issue(_, _) => SameOk(s, Step(s, event));
    case HostFailed(transient) => FailedTerminalOk(s, transient);
  }

  ghost predicate HonestRun(events: seq<Event>) {
    forall i | 0 <= i < |events| :: Honest(Run(events[..i]), events[i])
  }

  lemma {:induction false} RunSound(events: seq<Event>)
    requires HonestRun(events)
    ensures Sound(Run(events))
    decreases |events|
  {
    if events == [] {
      RunLifecycle([]);
    } else {
      var last := |events| - 1;
      forall i | 0 <= i < last ensures Honest(Run(events[..last][..i]), events[..last][i]) {
        assert events[..last][..i] == events[..i];
      }
      RunSound(events[..last]);
      StepOk(Run(events[..last]), events[last]);
      StepLifecycle(Run(events[..last]), events[last]);
    }
  }

  // ---- what the host observes

  /** While the session is not fenced, every control send but the newest has been completed. */
  lemma OneOutstanding(events: seq<Event>, i: nat)
    requires HonestRun(events)
    requires var s := Run(events); s.link.active.Some? && !s.link.active.value.fenced && i + 1 < |s.traffic.sends|
    ensures Run(events).traffic.sends[i].operation in Run(events).traffic.completed
  {
    RunSound(events);
  }

  /** After a rejected send the next one carries the same frame; after a delivered one, the next frame produced. */
  lemma RejectedIsResentFirst(events: seq<Event>, t: Traffic, i: nat)
    requires HonestRun(events) && t == Run(events).traffic && i + 1 < |t.sends|
    requires Run(events).link.active.Some? && !Run(events).link.active.value.fenced
    ensures t.sends[i].index < |t.produced| && t.sends[i].frame == t.produced[t.sends[i].index]
    ensures if t.sends[i].operation in t.delivered
            then t.sends[i].index + 1 < |t.produced| && t.sends[i + 1].frame == t.produced[t.sends[i].index + 1]
            else t.sends[i + 1].frame == t.sends[i].frame
  {
    RunSound(events);
    NextSend(t, i);
  }

  lemma NextSend(t: Traffic, i: nat)
    requires SendsOk(t) && i + 1 < |t.sends|
    ensures t.sends[i].index < |t.produced| && t.sends[i].frame == t.produced[t.sends[i].index]
    ensures if t.sends[i].operation in t.delivered
            then t.sends[i].index + 1 < |t.produced| && t.sends[i + 1].frame == t.produced[t.sends[i].index + 1]
            else t.sends[i + 1].frame == t.sends[i].frame
  {
    assert t.sends[i + 1].index < |t.produced|;
  }

  /** Another session's completion, another channel's, or one of an operation that is not the newest send. */
  predicate StaleFor(s: State, operation: nat, generation: nat, channel: nat)
    requires s.link.active.Some?
  {
    || generation != s.link.active.value.generation
    || channel != s.link.active.value.channel
    || s.traffic.sends == []
    || operation != s.traffic.sends[|s.traffic.sends| - 1].operation
  }

  /** While the session is not fenced a stale completion changes nothing but the record that it came. */
  lemma StaleCompletionIgnored(events: seq<Event>, s: State, operation: nat, generation: nat, channel: nat)
    requires HonestRun(events) && s == Run(events) && s.link.active.Some? && !s.link.active.value.fenced
    requires StaleFor(s, operation, generation, channel)
    ensures HostSent(s, operation, generation, channel) == Completing(s, operation)
    ensures HostRejected(s, operation, generation, channel) == Completing(s, operation)
  {
    RunSound(events);
  }

  /** A rejected frame is never forgotten: a timer is set that leads to sending it again. */
  lemma RejectedIsRemembered(events: seq<Event>, s: State, last: Sending)
    requires HonestRun(events) && s == Run(events) && s.link.active.Some? && !s.link.active.value.fenced
    requires s.traffic.sends != [] && last == s.traffic.sends[|s.traffic.sends| - 1]
    requires last.operation in s.traffic.completed && last.operation !in s.traffic.delivered
    ensures s.pump.pending.Some? && s.pump.pending.value.retrying && s.pump.pending.value.frame == last.frame
    ensures s.pump.signalRetry.Some? || s.pump.wake.Some?
  {
    RunSound(events);
    LastIsPending(s, last);
  }

  lemma LastIsPending(s: State, last: Sending)
    requires PumpOk(s) && s.link.active.Some? && !s.link.active.value.fenced
    requires s.traffic.sends != [] && last == s.traffic.sends[|s.traffic.sends| - 1]
    requires last.operation in s.traffic.completed && last.operation !in s.traffic.delivered
    ensures s.pump.pending.Some? && s.pump.pending.value.retrying && s.pump.pending.value.frame == last.frame
    ensures s.pump.signalRetry.Some? || s.pump.wake.Some?
  {
  }

  /** The frames of the delivered sends, in the order they were sent. */
  function DeliveredFrames(sends: seq<Sending>, delivered: set<nat>): seq<Frame> {
    if sends == [] then []
    else
      var last := |sends| - 1;
      DeliveredFrames(sends[..last], delivered) + if sends[last].operation in delivered then [sends[last].frame] else []
  }

  lemma {:induction false} DeliveredPrefix(t: Traffic, n: nat)
    requires SendsOk(t) && 0 < n <= |t.sends|
    ensures var last := t.sends[n - 1];
      var count := last.index + if last.operation in t.delivered then 1 else 0;
      count <= |t.produced| && DeliveredFrames(t.sends[..n], t.delivered) == t.produced[..count]
    decreases n
  {
    assert t.sends[..n][..n - 1] == t.sends[..n - 1];
    if n > 1 {
      DeliveredPrefix(t, n - 1);
      var previous := t.sends[n - 2];
      assert t.sends[n - 2 + 1].index == previous.index + if previous.operation in t.delivered then 1 else 0;
    } else {
      assert t.sends[..0] == [];
    }
  }

  lemma DeliveredIsPrefix(s: State)
    requires PumpOk(s) && s.link.active.Some? && !s.link.active.value.fenced
    ensures s.traffic.acked <= |s.traffic.produced| <= s.traffic.acked + 1
    ensures DeliveredFrames(s.traffic.sends, s.traffic.delivered) == s.traffic.produced[..s.traffic.acked]
  {
    var t := s.traffic;
    if t.sends != [] {
      DeliveredPrefix(t, |t.sends|);
      assert t.sends[..|t.sends|] == t.sends;
    }
  }

  /** What the host has taken is exactly a prefix of what the reconciler produced, and lags by at most one frame. */
  lemma DeliveredExactlyOnceInOrder(events: seq<Event>)
    requires HonestRun(events)
    requires var s := Run(events); s.link.active.Some? && !s.link.active.value.fenced
    ensures var t := Run(events).traffic;
      && t.acked <= |t.produced| <= t.acked + 1
      && DeliveredFrames(t.sends, t.delivered) == t.produced[..t.acked]
  {
    RunSound(events);
    DeliveredIsPrefix(Run(events));
  }
}
