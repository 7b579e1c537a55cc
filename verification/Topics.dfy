/** The sending half of the topics as an object that updates its fields in place. */
module TopicSends {
  import opened Basics
  import OrderedDelivery
  import Replay
  import opened SendQueue
  import opened SendOrder

  type Payload = OrderedDelivery.Payload

  class Topics {
    var registered: set<Key>
    var active: Option<Active>
    var publishers: map<Key, Publisher>
    var operations: nat
    var acceptedSends: nat
    var droppedSends: nat
    var epochs: nat
    ghost var calls: nat
    ghost var acknowledged: nat
    ghost var sent: seq<(Key, Outgoing)>

    ghost function Tally(): Counters
      reads this
    {
      Counters(operations, acceptedSends, droppedSends, calls, acknowledged, epochs)
    }

    ghost function View(): State
      reads this
    {
      State(registered, active, publishers, Tally(), sent)
    }

    constructor ()
      ensures View() == EMPTY
    {
      registered, active, publishers := {}, None, map[];
      operations, acceptedSends, droppedSends, epochs := 0, 0, 0, 0;
      calls, acknowledged, sent := 0, 0, [];
    }

    method Dispatch(key: Key)
      modifies `publishers, `operations, `sent
      ensures View() == Dispatched(old(View()), key)
    {
      var channel := ChannelFor(active, key);
      if channel.None? || key !in publishers {
        return;
      }
      var p := publishers[key];
      if p.flight.Some? || p.binding.None? || p.queue == [] {
        return;
      }
      var flight := Flight(operations, active.value.generation, channel.value, p.queue[0]);
      operations := operations + 1;
      publishers := publishers[key := p.(queue := p.queue[1..], flight := Some(flight))];
      sent := sent + [(key, p.queue[0])];
    }

    method Send(key: Key, payload: Payload, waiting: nat) returns (refusal: Option<Refusal>)
      modifies this
      ensures refusal == RefusalOf(old(View()), key, payload, waiting)
      ensures View() == Sent(old(View()), key, payload, waiting)
    {
      calls := calls + 1;
      refusal := Refuse(key, payload, waiting);
      if refusal.Some? {
        droppedSends := droppedSends + 1;
        return;
      }
      var p := publishers[key];
      if Supersedes(key, p) {
        droppedSends := droppedSends + 1;
      }
      publishers := publishers[key := Enqueued(key, p, payload)];
      acceptedSends := acceptedSends + 1;
      operations := operations + 1;
      assert View() == Admitted(old(View()), key, payload);
      Dispatch(key);
    }

    method Refuse(key: Key, payload: Payload, waiting: nat) returns (refusal: Option<Refusal>)
      ensures refusal == RefusalOf(View(), key, payload, waiting)
    {
      if |key.topic| == 0 || |key.topic| > MAX_TOPIC {
        return Some(InvalidTopic);
      }
      if |payload| > MAX_PAYLOAD {
        return Some(PayloadTooLarge);
      }
      if key !in registered {
        return Some(NotRegistered);
      }
      var channel := ChannelFor(active, key);
      if key !in publishers || publishers[key].binding.None? || channel.None? {
        return Some(Unavailable);
      }
      if publishers[key].archive.next == U64_MAX {
        return Some(Exhausted);
      }
      if Load(publishers[key]) + waiting >= SEND_CAPACITY {
        return Some(QueueFull);
      }
      return None;
    }

    method PendingPublisher(operation: nat, generation: nat, channel: nat) returns (found: Option<Key>)
      requires FlightsDistinct(View())
      ensures found == Sender(View(), operation, generation, channel)
    {
      var keys := publishers.Keys;
      while keys != {}
        invariant keys <= publishers.Keys
        invariant forall k | k in publishers && k !in keys :: !Awaits(publishers[k], operation, generation, channel)
        decreases |keys|
      {
        var key :| key in keys;
        if Awaits(publishers[key], operation, generation, channel) {
          return Some(key);
        }
        keys := keys - {key};
      }
      return None;
    }

    /** The host's completion of a send; `delivered` tells whether the host took it. */
    method Complete(operation: nat, generation: nat, channel: nat, delivered: bool) returns (handled: bool)
      requires FlightsDistinct(View())
      modifies this
      ensures View() == Completed(old(View()), operation, generation, channel, delivered)
      ensures handled == Sender(old(View()), operation, generation, channel).Some?
    {
      var key := PendingPublisher(operation, generation, channel);
      if key.None? {
        return false;
      }
      publishers := publishers[key.value := publishers[key.value].(flight := None)];
      if delivered {
        acknowledged := acknowledged + 1;
      } else {
        droppedSends := droppedSends + 1;
      }
      assert View() == Landed(old(View()), key.value, delivered);
      Dispatch(key.value);
      return true;
    }

    method InstallPublisher(generation: nat, channel: nat, key: Key, track: string)
      modifies this
      ensures View() == Installed(old(View()), generation, channel, key, track)
    {
      if active.None? || active.value.generation != generation {
        return;
      }
      active := Some(active.value.(channels := active.value.channels[channel := key],
                                   suspended := active.value.suspended - {channel}));
      var p := if key in publishers then publishers[key] else IDLE;
      if p.binding.None? || p.binding.value.track != track {
        p := p.(binding := Some(Binding(epochs, track)), archive := Replay.NEW, log := []);
      }
      epochs := epochs + 1;
      publishers := publishers[key := p];
      assert View() == Attached(old(View()), channel, key, track);
      Dispatch(key);
    }

    method Detach(generation: nat, channel: nat)
      modifies this
      ensures View() == Detached(old(View()), generation, channel)
    {
      if active.None? || active.value.generation != generation {
        return;
      }
      var channels: map<nat, Key> := active.value.channels;
      active := Some(Active(generation, channels - {channel}, active.value.suspended - {channel}));
      if channel in channels && channels[channel] in publishers {
        droppedSends := droppedSends + Load(publishers[channels[channel]]);
        publishers := publishers[channels[channel] := IDLE];
      }
    }

    /** Drops and forgets one publisher's load, or its whole entry. */
    method DropState(key: Key, forget: bool)
      requires key in publishers
      modifies `publishers, `droppedSends
      ensures publishers == if forget then old(publishers) - {key} else old(publishers)[key := IDLE]
      ensures droppedSends + Sum(Loads(publishers)) == old(droppedSends) + Sum(Loads(old(publishers)))
    {
      droppedSends := droppedSends + Load(publishers[key]);
      if forget {
        publishers := publishers - {key};
        SumRemove(Loads(old(publishers)), key);
        assert Loads(old(publishers)) - {key} == Loads(publishers);
      } else {
        LoadsUpdate(publishers, key, IDLE);
        publishers := publishers[key := IDLE];
      }
    }

    method DropAll()
      modifies `publishers, `droppedSends
      ensures publishers == map k | k in old(publishers) :: IDLE
      ensures droppedSends == old(droppedSends) + Sum(Loads(old(publishers)))
    {
      var keys := publishers.Keys;
      while keys != {}
        invariant keys <= publishers.Keys == old(publishers).Keys
        invariant forall k | k in publishers && k !in keys :: publishers[k] == IDLE
        invariant droppedSends + Sum(Loads(publishers)) == old(droppedSends) + Sum(Loads(old(publishers)))
        decreases |keys|
      {
        var key :| key in keys;
        DropState(key, false);
        keys := keys - {key};
      }
      SumZero(Loads(publishers));
    }

    method Unbind()
      modifies `active, `publishers, `droppedSends
      ensures View() == Unbound(old(View()))
    {
      active := None;
      DropAll();
    }

    method DropUnlisted(keys: set<Key>)
      modifies `publishers, `droppedSends
      ensures publishers == map k | k in old(publishers) && k in keys :: old(publishers)[k]
      ensures droppedSends == old(droppedSends) + Sum(Loads(old(publishers) - keys))
    {
      var removed := publishers.Keys - keys;
      while removed != {}
        invariant removed == publishers.Keys - keys
        invariant old(publishers).Keys * keys <= publishers.Keys
        invariant forall k | k in publishers :: k in old(publishers) && publishers[k] == old(publishers)[k]
        invariant droppedSends + Sum(Loads(publishers)) == old(droppedSends) + Sum(Loads(old(publishers)))
        decreases |removed|
      {
        var key :| key in removed;
        DropState(key, true);
        removed := removed - {key};
      }
      assert publishers.Keys == (publishers.Keys - keys) + publishers.Keys * keys;
      assert old(publishers).Keys * keys <= publishers.Keys <= keys;
      assert forall k | k in old(publishers) && k in keys :: k in old(publishers).Keys * keys;
      RestrictLoads(old(publishers), publishers, keys);
    }

    method Reconcile(keys: set<Key>)
      modifies this
      ensures View() == Reconciled(old(View()), keys)
    {
      registered := keys;
      DropUnlisted(keys);
      publishers := map k | k in keys :: if k in publishers then publishers[k] else IDLE;
      if active.Some? {
        var channels: map<nat, Key> := active.value.channels;
        active := Some(active.value.(channels := map c | c in channels && channels[c] in keys :: channels[c]));
      }
    }

    /** The answer of one publisher to a recovery request. */
    method Recover(key: Key, from: nat) returns (answer: Option<seq<OrderedDelivery.Body>>)
      requires key in publishers
      ensures answer == Replay.Answer(publishers[key].archive, from)
    {
      var archive := publishers[key].archive;
      if from > archive.next {
        return None;
      }
      var floor := Replay.Lowest(archive);
      var bodies: seq<OrderedDelivery.Body> := if from < floor then [OrderedDelivery.Floor(floor)] else [];
      ghost var lead := bodies;
      for i := 0 to |archive.history|
        invariant bodies == lead + Replay.Since(archive.history[..i], from)
      {
        assert archive.history[..i + 1][..i] == archive.history[..i];
        if archive.history[i].sequence >= from {
          bodies := bodies + [OrderedDelivery.Data(archive.history[i])];
        }
      }
      assert archive.history[..|archive.history|] == archive.history;
      return Some(bodies);
    }
  }

  lemma RestrictLoads(all: map<Key, Publisher>, kept: map<Key, Publisher>, keys: set<Key>)
    requires kept == map k | k in all && k in keys :: all[k]
    ensures Sum(Loads(all)) == Sum(Loads(kept)) + Sum(Loads(all - keys))
  {
    var loads := Loads(all);
    SumSplit(loads, keys);
    assert (map k | k in loads && k in keys :: loads[k]) == Loads(kept);
    assert loads - keys == Loads(all - keys);
  }
}
