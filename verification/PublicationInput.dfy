/**
 * Registering capture input with a publication. Registrations overlap in time:
 * each supersedes the one before, and their completions arrive late or twice.
 */
module PublicationInputs {
  import opened Basics

  datatype InputId = InputId(owner: nat, id: nat)

  datatype Intent = Replace | ConfigureCurrent | Retain(input: InputId)

  /** Core-issued registration work. */
  datatype Operation = Operation(owner: nat, input: Option<InputId>, revision: nat, present: bool)

  datatype Entry = Entry(spec: string, input: Option<InputId>, revision: nat, pending: bool, muted: bool,
                         present: Option<bool>)

  /** Publications by their owner; one counter issues owners and inputs. */
  datatype State = State(issued: nat, publications: map<nat, Entry>)

  const EMPTY := State(0, map[])

  predicate InputEnabled(e: Entry) {
    e.present == Some(true) && !e.muted && !e.pending
  }

  predicate Enabled(s: State, owner: nat) {
    owner in s.publications && InputEnabled(s.publications[owner])
  }

  predicate Matches(owner: nat, e: Entry, op: Operation) {
    owner == op.owner && e.input == op.input && e.revision == op.revision
  }

  function Declared(present: Option<bool>, now: bool): Option<bool> {
    if now || present.Some? then Some(now) else None
  }

  // ---- operations

  function Claimed(s: State, spec: string): State {
    if s.issued >= U64_MAX then s
    else if exists o | o in s.publications :: s.publications[o].spec == spec then s.(issued := s.issued + 1)
    else State(s.issued + 1, s.publications[s.issued + 1 := Entry(spec, None, 0, false, false, None)])
  }

  predicate Updates(s: State, owner: nat, spec: string) {
    owner in s.publications && s.publications[owner].spec == spec && s.publications[owner].revision < U64_MAX
  }

  function Updated(s: State, owner: nat, spec: string, present: bool): State {
    if !Updates(s, owner, spec) then s
    else
      var e := s.publications[owner];
      s.(publications := s.publications[owner :=
           e.(revision := e.revision + 1, input := None, pending := false, present := Declared(e.present, present))])
  }

  function Retained(e: Entry, intent: Intent): Option<InputId> {
    match intent
    case Replace => None
    case ConfigureCurrent => e.input
    case Retain(input) => Some(input)
  }

  predicate Begins(s: State, owner: nat, intent: Intent, present: bool) {
    && owner in s.publications
    && s.publications[owner].revision < U64_MAX
    && (intent.Retain? ==> intent.input.owner == owner && s.publications[owner].input == Some(intent.input))
    && (present && Retained(s.publications[owner], intent).None? ==> s.issued < U64_MAX)
  }

  function BegunInput(s: State, owner: nat, intent: Intent, present: bool): Option<InputId>
    requires Begins(s, owner, intent, present)
  {
    var retained := Retained(s.publications[owner], intent);
    if !present then None
    else if retained.Some? then retained
    else Some(InputId(owner, s.issued + 1))
  }

  function Begun(s: State, owner: nat, intent: Intent, present: bool, muted: bool): State {
    if !Begins(s, owner, intent, present) then s
    else
      var e := s.publications[owner];
      State(if present && Retained(e, intent).None? then s.issued + 1 else s.issued,
            s.publications[owner :=
              e.(input := BegunInput(s, owner, intent, present), revision := e.revision + 1, pending := true,
                 muted := muted, present := if e.present.Some? then Some(false) else None)])
  }

  function Issued(s: State, owner: nat, intent: Intent, present: bool): Operation
    requires Begins(s, owner, intent, present)
  {
    Operation(owner, BegunInput(s, owner, intent, present), s.publications[owner].revision + 1, present)
  }

  predicate Completes(s: State, op: Operation) {
    && op.owner in s.publications
    && Matches(op.owner, s.publications[op.owner], op)
    && s.publications[op.owner].pending
  }

  function Completed(s: State, op: Operation, succeeded: bool): State {
    if !Completes(s, op) then s
    else
      var e := s.publications[op.owner];
      s.(publications := s.publications[op.owner :=
           e.(pending := false, present := Declared(e.present, succeeded && op.present))])
  }

  predicate Fails(s: State, op: Operation) {
    op.owner in s.publications && Matches(op.owner, s.publications[op.owner], op)
  }

  function Failed(s: State, op: Operation): State {
    if !Fails(s, op) then s
    else
      var e := s.publications[op.owner];
      s.(publications := s.publications[op.owner := e.(present := Some(false), pending := false)])
  }

  function Muted(s: State, owner: nat, muted: bool): State {
    if owner !in s.publications then s
    else s.(publications := s.publications[owner := s.publications[owner].(muted := muted)])
  }

  function Released(s: State, owner: nat): State {
    s.(publications := s.publications - {owner})
  }

  // ---- runs

  datatype Event =
    | Claim(spec: string)
    | Update(owner: nat, spec: string, present: bool)
    | Begin(owner: nat, intent: Intent, present: bool, muted: bool)
    | Complete(operation: Operation, succeeded: bool)
    | Fail(operation: Operation)
    | Mute(owner: nat, muted: bool)
    | Release(owner: nat)

  function Step(s: State, event: Event): State {
    match event
    case Claim(spec) => Claimed(s, spec)
    case Update(owner, spec, present) => Updated(s, owner, spec, present)
    case Begin(owner, intent, present, muted) => Begun(s, owner, intent, present, muted)
    case Complete(operation, succeeded) => Completed(s, operation, succeeded)
    case Fail(operation) => Failed(s, operation)
    case Mute(owner, muted) => Muted(s, owner, muted)
    case Release(owner) => Released(s, owner)
  }

  function Run(s: State, events: seq<Event>): State {
    if events == [] then s else Step(Run(s, events[..|events| - 1]), events[|events| - 1])
  }

  ghost predicate Inv(s: State) {
    forall owner | owner in s.publications :: owner <= s.issued
  }

  lemma {:induction false} RunInv(s: State, events: seq<Event>)
    requires Inv(s)
    ensures Inv(Run(s, events)) && s.issued <= Run(s, events).issued
    decreases |events|
  {
    if events != [] { RunInv(s, events[..|events| - 1]); }
  }

  /** The event starts a new registration of the owner's input, accepted in this state. */
  predicate Registers(s: State, event: Event, owner: nat) {
    || (event.Update? && event.owner == owner && Updates(s, owner, event.spec))
    || (event.Begin? && event.owner == owner && Begins(s, owner, event.intent, event.present))
  }

  // ---- supersession

  /** An operation older than the owner's registration, or of an owner that is gone. */
  predicate Stale(s: State, op: Operation) {
    op.owner <= s.issued && (op.owner in s.publications ==> op.revision < s.publications[op.owner].revision)
  }

  lemma StaleStays(s: State, event: Event, op: Operation)
    requires Stale(s, op)
    ensures Stale(Step(s, event), op)
    ensures !Completes(s, op) && !Fails(s, op)
  {
  }

  lemma {:induction false} StaleForever(s: State, events: seq<Event>, op: Operation)
    requires Stale(s, op)
    ensures Stale(Run(s, events), op)
    decreases |events|
  {
    if events != [] {
      StaleForever(s, events[..|events| - 1], op);
      StaleStays(Run(s, events[..|events| - 1]), events[|events| - 1], op);
    }
  }

  /** A superseded operation never changes anything again: not by completing, not by failing, in no later state. */
  lemma SupersededIsInert(s: State, op: Operation, event: Event, events: seq<Event>, succeeded: bool)
    requires Inv(s) && Fails(s, op) && (Registers(s, event, op.owner) || event == Release(op.owner))
    ensures var t := Run(Step(s, event), events); Completed(t, op, succeeded) == t && Failed(t, op) == t
  {
    assert Stale(Step(s, event), op);
    StaleForever(Step(s, event), events, op);
  }

  /** The registration the operation belongs to is settled or gone. */
  predicate Spent(s: State, op: Operation) {
    Stale(s, op) || (Fails(s, op) && !s.publications[op.owner].pending)
  }

  lemma SpentStays(s: State, event: Event, op: Operation)
    requires Inv(s) && Spent(s, op)
    ensures Spent(Step(s, event), op) && !Completes(s, op)
  {
    if Stale(s, op) { StaleStays(s, event, op); }
  }

  lemma {:induction false} SpentForever(s: State, events: seq<Event>, op: Operation)
    requires Inv(s) && Spent(s, op)
    ensures Spent(Run(s, events), op)
    decreases |events|
  {
    if events != [] {
      SpentForever(s, events[..|events| - 1], op);
      RunInv(s, events[..|events| - 1]);
      SpentStays(Run(s, events[..|events| - 1]), events[|events| - 1], op);
    }
  }

  /** A completion takes effect at most once: afterwards the same operation completes nothing, in any later state. */
  lemma CompletesOnce(s: State, op: Operation, first: bool, events: seq<Event>, second: bool)
    requires Inv(s) && Completes(s, op)
    ensures var t := Run(Completed(s, op, first), events); Completed(t, op, second) == t
  {
    SpentForever(Completed(s, op, first), events, op);
  }

  // ---- the verdict on the newest registration

  /** A registration by itself, blind to every other one. */
  datatype Verdict = Awaiting | Live | Dead

  predicate Names(event: Event, op: Operation) {
    && (event.Complete? || event.Fail?)
    && event.operation.owner == op.owner && event.operation.input == op.input && event.operation.revision == op.revision
  }

  function Judged(v: Verdict, event: Event, op: Operation): Verdict {
    if !Names(event, op) then v
    else if event.Fail? then Dead
    else if v != Awaiting then v
    else if event.succeeded && event.operation.present then Live
    else Dead
  }

  function VerdictAfter(v: Verdict, events: seq<Event>, op: Operation): Verdict {
    if events == [] then v else Judged(VerdictAfter(v, events[..|events| - 1], op), events[|events| - 1], op)
  }

  /** No event of the run registers the owner anew or releases it. */
  ghost predicate Newest(s: State, events: seq<Event>, owner: nat) {
    forall i | 0 <= i < |events| ::
      !Registers(Run(s, events[..i]), events[i], owner) && events[i] != Release(owner)
  }

  ghost predicate Reflects(s: State, op: Operation, v: Verdict) {
    && Fails(s, op)
    && (v == Awaiting <==> s.publications[op.owner].pending)
    && (v == Live <==> s.publications[op.owner].present == Some(true) && !s.publications[op.owner].pending)
  }

  lemma StepReflects(s: State, event: Event, op: Operation, v: Verdict)
    requires Inv(s) && Reflects(s, op, v)
    requires !Registers(s, event, op.owner) && event != Release(op.owner)
    ensures Reflects(Step(s, event), op, Judged(v, event, op))
  {
  }

  lemma {:induction false} RunReflects(s: State, events: seq<Event>, op: Operation, v: Verdict)
    requires Inv(s) && Reflects(s, op, v) && Newest(s, events, op.owner)
    ensures Reflects(Run(s, events), op, VerdictAfter(v, events, op))
    decreases |events|
  {
    if events != [] {
      var last := |events| - 1;
      forall i | 0 <= i < last
        ensures !Registers(Run(s, events[..last][..i]), events[..last][i], op.owner)
          && events[..last][i] != Release(op.owner)
      {
        assert events[..last][..i] == events[..i];
      }
      RunReflects(s, events[..last], op, v);
      RunInv(s, events[..last]);
      StepReflects(Run(s, events[..last]), events[last], op, VerdictAfter(v, events[..last], op));
    }
  }

  /**
   * However registrations, completions and failures interleave, after the newest
   * accepted registration the input is enabled exactly when that registration,
   * judged alone, succeeded with media present, and the owner is not muted.
   */
  lemma EnabledExactly(s: State, owner: nat, intent: Intent, present: bool, muted: bool, events: seq<Event>)
    requires Inv(s) && Begins(s, owner, intent, present)
    requires Newest(Begun(s, owner, intent, present, muted), events, owner)
    ensures var op := Issued(s, owner, intent, present);
      var t := Run(Begun(s, owner, intent, present, muted), events);
      && owner in t.publications
      && (Enabled(t, owner) <==> VerdictAfter(Awaiting, events, op) == Live && !t.publications[owner].muted)
  {
    var op := Issued(s, owner, intent, present);
    assert Inv(Begun(s, owner, intent, present, muted));
    RunReflects(Begun(s, owner, intent, present, muted), events, op, Awaiting);
  }

  /** The same after a direct update, which settles at once. */
  lemma EnabledAfterUpdate(s: State, owner: nat, spec: string, present: bool, events: seq<Event>)
    requires Inv(s) && Updates(s, owner, spec)
    requires Newest(Updated(s, owner, spec, present), events, owner)
    ensures var op := Operation(owner, None, s.publications[owner].revision + 1, false);
      var t := Run(Updated(s, owner, spec, present), events);
      && owner in t.publications
      && (Enabled(t, owner) <==>
            VerdictAfter(if present then Live else Dead, events, op) == Live && !t.publications[owner].muted)
  {
    var op := Operation(owner, None, s.publications[owner].revision + 1, false);
    assert Inv(Updated(s, owner, spec, present));
    RunReflects(Updated(s, owner, spec, present), events, op, if present then Live else Dead);
  }

  /** No event of the run begins a registration of the owner, mutes it or releases it. */
  ghost predicate MuteUntouched(s: State, events: seq<Event>, owner: nat) {
    forall i | 0 <= i < |events| ::
      && !(events[i].Begin? && Registers(Run(s, events[..i]), events[i], owner))
      && !(events[i].Mute? && events[i].owner == owner) && events[i] != Release(owner)
  }

  lemma MuteKept(s: State, event: Event, owner: nat)
    requires Inv(s) && owner in s.publications
    requires !(event.Begin? && Registers(s, event, owner))
    requires !(event.Mute? && event.owner == owner) && event != Release(owner)
    ensures owner in Step(s, event).publications
      && Step(s, event).publications[owner].muted == s.publications[owner].muted
  {
  }

  /** The last instruction wins: it holds until the owner is muted anew, begins another registration or goes. */
  lemma {:induction false} MuteHolds(s: State, owner: nat, muted: bool, t: State, events: seq<Event>)
    requires Inv(s) && owner in s.publications && t == Muted(s, owner, muted) && MuteUntouched(t, events, owner)
    ensures owner in Run(t, events).publications && Run(t, events).publications[owner].muted == muted
    decreases |events|
  {
    assert Inv(t);
    if events != [] {
      var last := |events| - 1;
      assert MuteUntouched(t, events[..last], owner) by {
        forall i | 0 <= i < last ensures events[..last][..i] == events[..i] {
        }
      }
      MuteHolds(s, owner, muted, t, events[..last]);
      RunInv(t, events[..last]);
      MuteKept(Run(t, events[..last]), events[last], owner);
    }
  }

  /** A publication that was claimed and never registered an input is disabled, whatever else happens. */
  lemma DisabledUntilRegistered(s: State, spec: string, t: State, owner: nat, events: seq<Event>)
    requires Inv(s) && owner == s.issued + 1 <= U64_MAX && t == Claimed(s, spec) && owner in t.publications
    requires Newest(t, events, owner)
    ensures owner in Run(t, events).publications && !Enabled(Run(t, events), owner)
  {
    var op := Operation(owner, None, 0, false);
    assert t.publications[owner] == Entry(spec, None, 0, false, false, None);
    assert Inv(t) && Reflects(t, op, Dead);
    RunReflects(t, events, op, Dead);
    NeverLive(events, op);
  }

  lemma {:induction false} NeverLive(events: seq<Event>, op: Operation)
    ensures VerdictAfter(Dead, events, op) == Dead
    decreases |events|
  {
    if events != [] { NeverLive(events[..|events| - 1], op); }
  }

  /** A verdict is Live only through one completion that named the registration and reported success with media. */
  lemma {:induction false} LiveHasItsCompletion(events: seq<Event>, op: Operation)
    requires VerdictAfter(Awaiting, events, op) == Live
    ensures exists i | 0 <= i < |events| ::
      Names(events[i], op) && events[i].Complete? && events[i].succeeded && events[i].operation.present
    ensures forall i | 0 <= i < |events| :: !(Names(events[i], op) && events[i].Fail?)
    decreases |events|
  {
    var last := |events| - 1;
    if VerdictAfter(Awaiting, events[..last], op) == Live {
      LiveHasItsCompletion(events[..last], op);
      var i :| 0 <= i < last && Names(events[..last][i], op) && events[..last][i].Complete?
            && events[..last][i].succeeded && events[..last][i].operation.present;
      assert events[i] == events[..last][i];
    } else {
      NoFailureBefore(events[..last], op);
    }
  }

  lemma {:induction false} NoFailureBefore(events: seq<Event>, op: Operation)
    requires VerdictAfter(Awaiting, events, op) == Awaiting
    ensures forall i | 0 <= i < |events| :: !Names(events[i], op)
    decreases |events|
  {
    if events != [] {
      NoFailureBefore(events[..|events| - 1], op);
    }
  }

  // ---- the object

  class Publications {
    var issued: nat
    var publications: map<nat, Entry>

    ghost function View(): State
      reads this
    {
      State(issued, publications)
    }

    constructor ()
      ensures View() == EMPTY
    {
      issued, publications := 0, map[];
    }

    method NewOwner() returns (id: Option<nat>)
      modifies `issued
      ensures id.Some? <==> old(issued) < U64_MAX
      ensures if id.Some? then issued == old(issued) + 1 == id.value else issued == old(issued)
    {
      if issued >= U64_MAX {
        return None;
      }
      issued := issued + 1;
      return Some(issued);
    }

    method Claim(spec: string) returns (owner: Option<nat>)
      modifies this
      ensures View() == Claimed(old(View()), spec)
      ensures owner.Some? <==>
        old(issued) < U64_MAX && forall o | o in old(publications) :: old(publications)[o].spec != spec
      ensures owner.Some? ==> owner.value == old(issued) + 1
    {
      var id := NewOwner();
      if id.None? || exists o | o in publications :: publications[o].spec == spec {
        return None;
      }
      publications := publications[id.value := Entry(spec, None, 0, false, false, None)];
      return id;
    }

    method Update(owner: nat, spec: string, present: bool) returns (ok: bool)
      modifies this
      ensures ok == Updates(old(View()), owner, spec)
      ensures View() == Updated(old(View()), owner, spec, present)
    {
      if owner !in publications || publications[owner].spec != spec || publications[owner].revision >= U64_MAX {
        return false;
      }
      var e := publications[owner];
      publications := publications[owner := e.(revision := e.revision + 1, input := None, pending := false,
                                               present := Declared(e.present, present))];
      return true;
    }

    method Begin(owner: nat, intent: Intent, present: bool, muted: bool) returns (op: Option<Operation>)
      modifies this
      ensures View() == Begun(old(View()), owner, intent, present, muted)
      ensures op.Some? <==> Begins(old(View()), owner, intent, present)
      ensures op.Some? ==> op.value == Issued(old(View()), owner, intent, present) && Completes(View(), op.value)
    {
      if owner !in publications || publications[owner].revision >= U64_MAX {
        return None;
      }
      var e := publications[owner];
      if intent.Retain? && (intent.input.owner != owner || e.input != Some(intent.input)) {
        return None;
      }
      var input := Retained(e, intent);
      if !present {
        input := None;
      } else if input.None? {
        var id := NewOwner();
        if id.None? {
          return None;
        }
        input := Some(InputId(owner, id.value));
      }
      var left := if e.present.Some? then Some(false) else None;
      publications := publications[owner := e.(input := input, revision := e.revision + 1, pending := true,
                                               muted := muted, present := left)];
      return Some(Operation(owner, input, e.revision + 1, present));
    }

    method Complete(op: Operation, succeeded: bool) returns (enabled: Option<bool>)
      modifies this
      ensures View() == Completed(old(View()), op, succeeded)
      ensures enabled == if Completes(old(View()), op) then Some(Enabled(View(), op.owner)) else None
    {
      if op.owner !in publications || !Matches(op.owner, publications[op.owner], op)
        || !publications[op.owner].pending {
        return None;
      }
      var e := publications[op.owner];
      e := e.(pending := false);
      var present := succeeded && op.present;
      if present || e.present.Some? {
        e := e.(present := Some(present));
      }
      publications := publications[op.owner := e];
      return Some(InputEnabled(e));
    }

    method Fail(op: Operation) returns (enabled: Option<bool>)
      modifies this
      ensures View() == Failed(old(View()), op)
      ensures enabled == if Fails(old(View()), op) then Some(false) else None
    {
      if op.owner !in publications || !Matches(op.owner, publications[op.owner], op) {
        return None;
      }
      publications := publications[op.owner := publications[op.owner].(present := Some(false), pending := false)];
      return Some(false);
    }

    method SetMuted(owner: nat, muted: bool) returns (enabled: Option<bool>)
      modifies this
      ensures View() == Muted(old(View()), owner, muted)
      ensures enabled == if owner in old(publications) then Some(Enabled(View(), owner)) else None
    {
      if owner !in publications {
        return None;
      }
      publications := publications[owner := publications[owner].(muted := muted)];
      return Some(InputEnabled(publications[owner]));
    }

    method Release(owner: nat)
      modifies this
      ensures View() == Released(old(View()), owner)
    {
      publications := publications - {owner};
    }
  }
}
