/** The agent's connection as an object that updates its fields in place. */
module Agents {
  import opened Basics
  import opened Connection

  class Agent {
    var wanted: bool
    var attempt: Option<Attempt>
    var active: Option<Session>
    var retry: Option<Retry>
    var closing: Option<Closing>
    var terminal: bool
    var pendingSignal: Option<Pending>
    var signalRetry: Option<nat>
    var wake: Option<nat>
    var generations: nat
    var operations: nat
    var timers: nat
    ghost var traffic: Traffic

    ghost function TheLink(): Link
      reads this
    {
      Link(wanted, attempt, active, retry, closing, terminal)
    }

    ghost function View(): State
      reads this
    {
      State(TheLink(), Pump(pendingSignal, signalRetry, wake), Ids(generations, operations, timers), traffic)
    }

    constructor ()
      ensures View() == INITIAL
    {
      wanted, attempt, active, retry, closing, terminal := false, None, None, None, None, false;
      pendingSignal, signalRetry, wake := None, None, None;
      generations, operations, timers := 0, 0, 0;
      traffic := INITIAL.traffic;
    }

    method StartAttempt(style: Style)
      modifies `attempt, `generations
      ensures View() == Started(old(View()), style)
    {
      if terminal {
        return;
      }
      attempt := Some(NewAttempt(generations, style));
      generations := generations + 1;
    }

    method FenceSignaling()
      modifies `active, `pendingSignal, `signalRetry, `wake
      ensures View() == Fenced(old(View()))
    {
      if active.Some? {
        active := Some(active.value.(fenced := true, routes := {}));
      }
      pendingSignal, signalRetry, wake := None, None, None;
    }

    method ScheduleRetry(style: Style)
      modifies `retry, `timers
      ensures View() == RetryScheduled(old(View()), style)
    {
      retry := Some(Retry(timers, style));
      timers := timers + 1;
    }

    method EmitClose(generation: nat)
      modifies `traffic
      ensures traffic == Closed(old(traffic), generation)
    {
      traffic := Closed(traffic, generation);
    }

    method FailAttempt(transient: bool)
      modifies this
      ensures View() == FailedAttempt(old(View()), transient)
      decreases if attempt.Some? then 1 else 0, 0
    {
      if attempt.None? {
        return;
      }
      var a := attempt.value;
      attempt := None;
      EmitClose(a.generation);
      pendingSignal := None;
      if transient {
        ScheduleRetry(a.style);
      } else {
        FailTerminal(false);
      }
    }

    method FailTerminal(transient: bool)
      modifies this
      ensures View() == FailedTerminal(old(View()), transient)
      decreases if attempt.Some? then 1 else 0, 1
    {
      if terminal {
        return;
      }
      if attempt.Some? {
        FailAttempt(transient);
        return;
      }
      retry := None;
      pendingSignal, signalRetry := None, None;
      if active.Some? {
        FenceSignaling();
      }
      terminal := true;
    }

    method TransportLost(generation: nat)
      modifies this
      ensures View() == Lost(old(View()), generation)
    {
      if attempt.Some? && attempt.value.generation == generation {
        FailAttempt(true);
      } else if active.Some? && active.value.generation == generation {
        FenceSignaling();
        if wanted && !terminal && attempt.None? && retry.None? {
          StartAttempt(Replacement);
        }
      }
    }

    method Reconnect()
      modifies this
      ensures View() == Reconnected(old(View()))
    {
      if !wanted || closing.Some? || attempt.Some? {
        return;
      }
      retry, terminal := None, false;
      if active.Some? {
        FenceSignaling();
        StartAttempt(Replacement);
      } else {
        StartAttempt(Fresh);
      }
    }

    method FinishDisconnected()
      modifies this
      ensures View() == FinishedDisconnected(old(View()))
    {
      attempt, active, retry, closing, terminal, pendingSignal := None, None, None, None, false, None;
      if wanted {
        StartAttempt(Fresh);
      }
    }

    method CloseAttempt() returns (left: set<nat>, deletes: nat)
      modifies `attempt, `traffic
      ensures attempt.None? && left == GenerationsOf(old(TheLink()).(active := None))
      ensures deletes == DeletesOf(old(TheLink()).(active := None))
      ensures traffic == if old(attempt).Some? then Closed(old(traffic), old(attempt).value.generation)
        else old(traffic)
    {
      left, deletes := {}, 0;
      if attempt.Some? {
        left := {attempt.value.generation};
        EmitClose(attempt.value.generation);
        if attempt.value.candidate.Some? {
          deletes := 1;
        }
        attempt := None;
      }
    }

    /** Closes the attempt and the active session; each server resource gets a delete. */
    method CloseBoth() returns (left: Closing)
      modifies `attempt, `active, `traffic, `operations
      ensures attempt.None? && active.None?
      ensures left == Closing(GenerationsOf(old(TheLink())), NextOperations(old(operations), DeletesOf(old(TheLink()))))
      ensures operations == old(operations) + DeletesOf(old(TheLink()))
      ensures traffic == old(traffic).(closes := ClosesAfter(old(View())))
    {
      var open, n := CloseAttempt();
      if active.Some? {
        if active.value.generation !in open {
          EmitClose(active.value.generation);
        }
        open := open + {active.value.generation};
        n := n + 1;
        active := None;
      }
      left := Closing(open, NextOperations(operations, n));
      operations := operations + n;
    }

    method EndAll() returns (left: Closing)
      modifies this
      ensures View() == Ending(old(View()))
      ensures left == Closing(GenerationsOf(old(TheLink())), NextOperations(old(operations), DeletesOf(old(TheLink()))))
    {
      left := CloseBoth();
      retry, signalRetry, wake, pendingSignal := None, None, None, None;
    }

    /** Disconnected once nothing is left to close. */
    method FinishCloseIfReady(left: Closing)
      modifies this
      ensures View() == CloseSettled(old(View()), left)
    {
      if left.generations == {} && left.deletes == {} {
        closing := None;
        FinishDisconnected();
      } else {
        closing := Some(left);
      }
    }

    method BeginClose()
      modifies this
      ensures View() == BegunClose(old(View()))
    {
      if closing.Some? {
        return;
      }
      var left := EndAll();
      FinishCloseIfReady(left);
    }

    method ApplyDesired(connected: bool, changed: bool)
      modifies this
      ensures View() == Desired(old(View()), connected, changed)
    {
      wanted := connected;
      if !wanted {
        BeginClose();
      } else if closing.None? && attempt.None? && retry.None? && !terminal && active.None? {
        StartAttempt(Fresh);
      } else if changed {
        RequestReconciliation();
      }
    }

    method ApplyMessage(outcome: Outcome) returns (ok: bool)
      modifies this
      ensures View() == Signaled(old(View()), outcome)
      ensures ok <==> !Rejects(old(View()), outcome)
    {
      if active.None? || active.value.fenced {
        return true;
      }
      match outcome {
        case Fine =>
        case TransientClose =>
          FenceSignaling();
          StartAttempt(Replacement);
        case TerminalClose =>
          FailTerminal(false);
        case Malformed =>
          FailTerminal(false);
          return false;
      }
      return true;
    }

    method ApplyEarly(early: seq<Outcome>) returns (ok: bool)
      modifies this
      ensures View() == SignaledAll(old(View()), early)
      ensures ok <==> Digests(old(View()), early)
    {
      ok := true;
      var i := 0;
      while i < |early|
        invariant 0 <= i <= |early| && ok
        invariant SignaledAll(View(), early[i..]) == SignaledAll(old(View()), early)
        invariant Digests(View(), early[i..]) <==> Digests(old(View()), early)
      {
        assert early[i..][1..] == early[i + 1..];
        ok := ApplyMessage(early[i]);
        if !ok {
          return;
        }
        i := i + 1;
      }
    }

    method TryActivate() returns (ok: bool)
      modifies this
      ensures View() == Activated(old(View()))
      ensures ok <==> (old(attempt).Some? && Ready(old(attempt).value) ==>
                         && old(attempt).value.candidate.value.participantValid
                         && Digests(Replaced(old(View()), old(attempt).value), old(attempt).value.early))
    {
      if attempt.None? || !Ready(attempt.value) {
        return true;
      }
      var a := attempt.value;
      attempt := None;
      if !a.candidate.value.participantValid {
        traffic := traffic.(stranded := traffic.stranded + {a.generation});
        return false;
      }
      if active.Some? && active.value.generation != a.generation {
        EmitClose(active.value.generation);
      }
      active := Some(Session(a.generation, a.resources.value.signaling, false, map[], {}));
      pendingSignal, signalRetry := None, None;
      traffic := traffic.(produced := [], acked := 0, sends := []);
      assert View() == Replaced(old(View()), a);
      ok := ApplyEarly(a.early);
    }

    /** The active session lacks the channel from now on. */
    method LoseChannel(generation: nat, channel: nat)
      modifies `active, `wake
      ensures View() == Missing(old(View()), generation, channel)
    {
      if active.None? || active.value.generation != generation {
        return;
      }
      var a := active.value;
      if channel in a.payloads {
        a := a.(payloads := a.payloads[channel := Shut]);
      }
      if a.channel == channel {
        a := a.(fenced := true);
        wake := None;
      }
      active := Some(a);
    }

    method ReplaceSession()
      modifies `active, `attempt, `generations
      ensures View() == Started(Unrouted(old(View())), Replacement)
    {
      if active.Some? {
        active := Some(active.value.(routes := {}));
      }
      StartAttempt(Replacement);
    }

    method ChannelClosed(generation: nat, channel: nat)
      modifies this
      ensures View() == Connection.ChannelClosed(old(View()), generation, channel)
    {
      var mine := active.Some? && active.value.generation == generation;
      var signaling := mine && active.value.channel == channel;
      var payload := mine && channel in active.value.payloads;
      LoseChannel(generation, channel);
      if attempt.Some? && attempt.value.generation == generation && attempt.value.resources.Some?
         && (attempt.value.resources.value.signaling == channel || channel in attempt.value.resources.value.channels) {
        FailAttempt(true);
      } else if signaling && wanted && attempt.None? && retry.None? {
        ReplaceSession();
      } else if mine && channel in active.value.routes {
        active := Some(active.value.(routes := active.value.routes - {channel}));
        if !payload && wanted && attempt.None? && retry.None? {
          ReplaceSession();
        }
      }
    }

    method InstallTopic(channel: nat)
      modifies `active
      ensures View() == TopicInstalled(old(View()), channel)
    {
      if active.Some? && !active.value.fenced && channel in active.value.payloads
         && active.value.payloads[channel].Usable? {
        active := Some(active.value.(routes := active.value.routes + {channel}));
      }
    }

    method ReleasePayload(channel: nat)
      modifies `active
      ensures View() == PayloadReleased(old(View()), channel)
    {
      if active.Some? && channel in active.value.payloads && active.value.payloads[channel].Shut? {
        active := Some(active.value.(payloads := active.value.payloads - {channel}));
      }
    }

    method HandleOffer(generation: nat, resources: Resources)
      modifies `attempt, `operations
      ensures View() == OfferCreated(old(View()), generation, resources)
    {
      if attempt.None? || attempt.value.generation != generation || attempt.value.stage != Offering {
        return;
      }
      attempt := Some(attempt.value.(stage := Requesting, resources := Some(resources), request := Some(operations)));
      operations := operations + 1;
    }

    method HandleReply(operation: nat, reply: Reply)
      modifies this
      ensures View() == Replied(old(View()), operation, reply)
    {
      if closing.Some? && operation in closing.value.deletes {
        FinishCloseIfReady(closing.value.(deletes := closing.value.deletes - {operation}));
      } else if attempt.Some? && attempt.value.request == Some(operation) && attempt.value.stage == Requesting {
        match reply {
          case Refused(transient) =>
            FailAttempt(transient);
          case Accepted(candidate) =>
            attempt := Some(attempt.value.(stage := Applying, request := None, candidate := Some(candidate)));
        }
      }
    }

    method HandleRtcClosed(generation: nat)
      modifies this
      ensures View() == Step(old(View()), RtcClosed(generation))
    {
      if closing.Some? {
        FinishCloseIfReady(closing.value.(generations := closing.value.generations - {generation}));
      }
    }

    method HandleAnswerApplied(generation: nat) returns (ok: bool)
      modifies this
      ensures View() == Step(old(View()), AnswerApplied(generation))
    {
      ok := true;
      if attempt.Some? && attempt.value.generation == generation {
        attempt := Some(attempt.value.(answered := true));
        ok := TryActivate();
      }
    }

    method HandleOpened(generation: nat, channel: nat) returns (ok: bool)
      modifies this
      ensures View() == ChannelOpened(old(View()), generation, channel)
    {
      ok := true;
      if attempt.None? || attempt.value.generation != generation || attempt.value.resources.None? {
        return;
      }
      var a := attempt.value;
      if a.resources.value.signaling == channel {
        attempt := Some(a.(signalingOpen := true));
        ok := TryActivate();
      } else if channel in a.resources.value.channels {
        attempt := Some(a.(openChannels := a.openChannels + {channel}));
        ok := TryActivate();
      }
    }

    method HandleMessage(generation: nat, channel: nat, outcome: Outcome)
      modifies this
      ensures View() == Received(old(View()), generation, channel, outcome)
    {
      if attempt.Some? && attempt.value.generation == generation && attempt.value.resources.Some?
         && attempt.value.resources.value.signaling == channel {
        if |attempt.value.early| == MAX_EARLY {
          FailAttempt(true);
        } else {
          attempt := Some(attempt.value.(early := attempt.value.early + [outcome]));
        }
      } else if active.Some? && active.value.generation == generation && active.value.channel == channel {
        var _ := ApplyMessage(outcome);
      }
    }

    method RequestReconciliation()
      modifies `wake, `timers
      ensures View() == Requested(old(View()))
    {
      if wake.Some? || terminal || closing.Some? || active.None? || active.value.fenced {
        return;
      }
      wake := Some(timers);
      timers := timers + 1;
    }

    method ReconcileCurrent(offer: Offer)
      modifies this
      ensures View() == Pumped(old(View()), offer)
    {
      if terminal || closing.Some? || active.None? || active.value.fenced || signalRetry.Some? {
        return;
      }
      if pendingSignal.Some? {
        if pendingSignal.value.retrying {
          traffic := traffic.(sends := traffic.sends + [Sending(operations, traffic.acked, pendingSignal.value.frame)]);
          pendingSignal := Some(pendingSignal.value.(operation := operations, retrying := false));
          operations := operations + 1;
        }
        return;
      }
      match offer {
        case Nothing =>
        case Broken =>
          FailTerminal(false);
        case Next(frame) =>
          traffic := traffic.(produced := traffic.produced + [frame],
                              sends := traffic.sends + [Sending(operations, |traffic.produced|, frame)]);
          pendingSignal := Some(Pending(operations, active.value.generation, active.value.channel, frame, false));
          operations := operations + 1;
      }
    }

    method HandleSent(operation: nat, generation: nat, channel: nat) returns (mine: bool)
      modifies this
      ensures mine == Correlates(old(View()), operation, generation, channel)
      ensures View() == HostSent(old(View()), operation, generation, channel)
    {
      traffic := traffic.(completed := traffic.completed + {operation});
      mine := pendingSignal.Some? && pendingSignal.value.operation == operation
              && pendingSignal.value.generation == generation && pendingSignal.value.channel == channel;
      if mine {
        pendingSignal := None;
        traffic := traffic.(acked := traffic.acked + 1, delivered := traffic.delivered + {operation});
        RequestReconciliation();
      }
    }

    method HandleSendFailed(operation: nat, generation: nat, channel: nat) returns (mine: bool)
      modifies this
      ensures mine == Correlates(old(View()), operation, generation, channel)
      ensures View() == HostRejected(old(View()), operation, generation, channel)
    {
      traffic := traffic.(completed := traffic.completed + {operation});
      mine := pendingSignal.Some? && pendingSignal.value.operation == operation
              && pendingSignal.value.generation == generation && pendingSignal.value.channel == channel;
      if mine {
        pendingSignal := Some(pendingSignal.value.(retrying := true));
        if signalRetry.None? && active.Some? {
          signalRetry := Some(timers);
          timers := timers + 1;
        }
      }
    }

    method HandleTimer(timer: nat, offer: Offer)
      modifies this
      ensures View() == Fired(old(View()), timer, offer)
    {
      if retry.Some? && retry.value.timer == timer {
        var style := retry.value.style;
        retry := None;
        if wanted {
          StartAttempt(style);
        }
      } else if wake == Some(timer) {
        wake := None;
        ReconcileCurrent(offer);
      } else if signalRetry == Some(timer) {
        signalRetry := None;
        RequestReconciliation();
      }
    }
  }
}
