/** The create-or-share registry of authoritative sessions: slots hold weak
    references, a session clears its slot from `Drop`, and openers race. */
module Registry {
  import opened Events

  datatype Key = Key(instrument: Instrument, kind: EventKind)

  type SessionId = nat
  type RefId = nat

  /** `claimed` once the session was put into its slot; `dropped` once its
      `Drop` has run. */
  datatype Session = Session(key: Key, claimed: bool, dropped: bool)

  /** `refs` are the strong references that exist right now, whoever holds them
      (openers, guards, handles); a session with none is dead. */
  datatype State = State(slots: map<Key, SessionId>, sessions: map<SessionId, Session>, refs: map<RefId, SessionId>)

  const Initial: State := State(map[], map[], map[])

  predicate Alive(s: State, a: SessionId) {
    exists r :: r in s.refs && s.refs[r] == a
  }

  /** The slot's weak reference upgrades. */
  predicate Occupied(s: State, k: Key) {
    k in s.slots && Alive(s, s.slots[k])
  }

  datatype Step =
    | Probe(key: Key, newRef: RefId)
    | Create(key: Key, session: SessionId, newRef: RefId)
    | Claim(ref: RefId, newRef: RefId)
    | Clone(ref: RefId, newRef: RefId)
    | Release(ref: RefId)
    | RunDrop(session: SessionId)

  predicate Enabled(s: State, st: Step) {
    match st
    case Probe(_, newRef) => newRef !in s.refs
    case Create(_, a, newRef) => a !in s.sessions && newRef !in s.refs
    case Claim(r, newRef) =>
      r in s.refs && s.refs[r] in s.sessions && !s.sessions[s.refs[r]].claimed && newRef !in s.refs
    case Clone(r, newRef) => r in s.refs && newRef !in s.refs
    case Release(r) => r in s.refs
    case RunDrop(a) => a in s.sessions && !s.sessions[a].dropped && !Alive(s, a)
  }

  /** `Probe` and `Claim` are the two critical sections of an opener, `RunDrop`
      that of a dying session; an opener that lost the race, or whose open
      failed, only releases its references. */
  function Apply(s: State, st: Step): State
    requires Enabled(s, st)
  {
    match st
    case Probe(k, newRef) => if Occupied(s, k) then s.(refs := s.refs[newRef := s.slots[k]]) else s
    case Create(k, a, newRef) =>
      s.(sessions := s.sessions[a := Session(k, false, false)], refs := s.refs[newRef := a])
    case Claim(r, newRef) =>
      var a := s.refs[r];
      var k := s.sessions[a].key;
      if Occupied(s, k) then s.(refs := s.refs[newRef := s.slots[k]])
      else s.(slots := s.slots[k := a], sessions := s.sessions[a := s.sessions[a].(claimed := true)])
    case Clone(r, newRef) => s.(refs := s.refs[newRef := s.refs[r]])
    case Release(r) => s.(refs := s.refs - {r})
    case RunDrop(a) =>
      var k := s.sessions[a].key;
      var s' := s.(sessions := s.sessions[a := s.sessions[a].(dropped := true)]);
      if k in s.slots && !Alive(s, s.slots[k]) then s'.(slots := s.slots - {k}) else s'
  }

  predicate Runs(s: State, steps: seq<Step>, t: State)
    decreases |steps|
  {
    if steps == [] then s == t
    else Enabled(s, steps[0]) && Runs(Apply(s, steps[0]), steps[1..], t)
  }

  /** A live session that claimed its slot is the one the slot points to, and no
      slot points to a dropped one. */
  ghost predicate SlotsPointToClaimants(s: State) {
    && (forall r | r in s.refs :: s.refs[r] in s.sessions)
    && (forall a | a in s.sessions && s.sessions[a].dropped :: !Alive(s, a))
    && (forall a | a in s.sessions && s.sessions[a].claimed && Alive(s, a) ::
          s.sessions[a].key in s.slots && s.slots[s.sessions[a].key] == a)
    && (forall k | k in s.slots ::
          && s.slots[k] in s.sessions && s.sessions[s.slots[k]].key == k
          && s.sessions[s.slots[k]].claimed && !s.sessions[s.slots[k]].dropped)
  }

  lemma MoreRefs(s: State, newRef: RefId, a: SessionId)
    requires SlotsPointToClaimants(s) && newRef !in s.refs && Alive(s, a)
    ensures SlotsPointToClaimants(s.(refs := s.refs[newRef := a]))
  {
    var s' := s.(refs := s.refs[newRef := a]);
    forall b | Alive(s', b)
      ensures Alive(s, b)
    {
      var r :| r in s'.refs && s'.refs[r] == b;
      assert r != newRef ==> r in s.refs && s.refs[r] == b;
    }
    var r0 :| r0 in s.refs && s.refs[r0] == a;
  }

  lemma SameRefs(s: State, s': State)
    requires s'.refs == s.refs
    ensures forall a :: Alive(s, a) <==> Alive(s', a)
  {
  }

  lemma CreateKeeps(s: State, k: Key, a: SessionId, newRef: RefId)
    requires SlotsPointToClaimants(s) && Enabled(s, Create(k, a, newRef))
    ensures SlotsPointToClaimants(Apply(s, Create(k, a, newRef)))
  {
    var s' := Apply(s, Create(k, a, newRef));
    forall b | b != a && Alive(s', b)
      ensures Alive(s, b)
    {
      var r :| r in s'.refs && s'.refs[r] == b;
      assert r in s.refs && s.refs[r] == b;
    }
  }

  lemma StepKeepsClaimants(s: State, st: Step)
    requires SlotsPointToClaimants(s) && Enabled(s, st)
    ensures SlotsPointToClaimants(Apply(s, st))
  {
    var s' := Apply(s, st);
    match st
    case Probe(k, newRef) =>
      if Occupied(s, k) {
        MoreRefs(s, newRef, s.slots[k]);
      }
    case Create(k, a, newRef) => CreateKeeps(s, k, a, newRef);
    case Claim(r, newRef) =>
      if Occupied(s, s.sessions[s.refs[r]].key) {
        MoreRefs(s, newRef, s.slots[s.sessions[s.refs[r]].key]);
      } else {
        SameRefs(s, s');
      }
    case Clone(r, newRef) =>
      assert Alive(s, s.refs[r]);
      MoreRefs(s, newRef, s.refs[r]);
    case Release(r) =>
      forall b | Alive(s', b)
        ensures Alive(s, b)
      {
        var q :| q in s'.refs && s'.refs[q] == b;
        assert q in s.refs && s.refs[q] == b;
      }
    case RunDrop(a) => SameRefs(s, s');
  }

  lemma {:induction false} RunKeepsClaimants(s: State, steps: seq<Step>, t: State)
    requires SlotsPointToClaimants(s) && Runs(s, steps, t)
    ensures SlotsPointToClaimants(t)
    decreases |steps|
  {
    if steps != [] {
      StepKeepsClaimants(s, steps[0]);
      RunKeepsClaimants(Apply(s, steps[0]), steps[1..], t);
    }
  }

  /** A step leaves all sessions and their keys, all references but at most `r`,
      and claims at most `a`. */
  predicate Frame(s: State, s': State, r: Option<RefId>, a: Option<SessionId>) {
    && (forall b | b in s.sessions ::
          && b in s'.sessions && s'.sessions[b].key == s.sessions[b].key
          && (s'.sessions[b].claimed == s.sessions[b].claimed || (a == Some(b) && s'.sessions[b].claimed)))
    && (forall x | x in s.refs && r != Some(x) :: x in s'.refs && s'.refs[x] == s.refs[x])
  }

  lemma StepFrame(s: State, st: Step)
    requires Enabled(s, st)
    ensures Frame(s, Apply(s, st),
                  if st.Release? then Some(st.ref) else None, if st.Claim? then Some(s.refs[st.ref]) else None)
    ensures Apply(s, st).sessions.Keys == s.sessions.Keys + if st.Create? then {st.session} else {}
  {
  }

  /** A held session stays in its slot, and held, whatever others do. */
  lemma HeldSlotStays(s: State, st: Step, k: Key, r: RefId)
    requires SlotsPointToClaimants(s) && Enabled(s, st) && k in s.slots && r in s.refs && s.refs[r] == s.slots[k]
    requires st != Release(r)
    ensures var s' := Apply(s, st); k in s'.slots && s'.slots[k] == s.slots[k] && r in s'.refs && s'.refs[r] == s.slots[k]
  {
    assert Alive(s, s.slots[k]);
  }

  /** In every interleaving of probes, creations, lost races, failed opens and
      drops, at most one strongly held session per key has claimed the slot,
      and it is the one the slot points to. */
  lemma AtMostOneLiveSessionPerKey(steps: seq<Step>, s: State, a: SessionId, b: SessionId)
    requires Runs(Initial, steps, s)
    requires a in s.sessions && s.sessions[a].claimed && Alive(s, a)
    ensures s.sessions[a].key in s.slots && s.slots[s.sessions[a].key] == a
    ensures b in s.sessions && s.sessions[b].claimed && Alive(s, b) && s.sessions[b].key == s.sessions[a].key ==> b == a
  {
    RunKeepsClaimants(Initial, steps, s);
  }

  /** No drop, however late, takes a live successor out of its slot. */
  lemma DropNeverRemovesALiveSuccessor(steps: seq<Step>, s: State, a: SessionId, b: SessionId)
    requires Runs(Initial, steps, s) && Enabled(s, RunDrop(a))
    requires b in s.sessions && s.sessions[b].claimed && Alive(s, b)
    ensures var t := Apply(s, RunDrop(a)); s.sessions[b].key in t.slots && t.slots[s.sessions[b].key] == b
  {
    RunKeepsClaimants(Initial, steps, s);
    StepKeepsClaimants(s, RunDrop(a));
    SameRefs(s, Apply(s, RunDrop(a)));
  }

  /** The map does not leak: in every reachable state no slot points to a
      session whose drop has run, so once every dead session's drop has run the
      slots are exactly those of live sessions. */
  lemma NoSlotOutlivesItsSession(steps: seq<Step>, s: State, k: Key)
    requires Runs(Initial, steps, s) && k in s.slots
    ensures s.slots[k] in s.sessions && s.sessions[s.slots[k]].key == k && !s.sessions[s.slots[k]].dropped
    ensures (forall a | a in s.sessions && !Alive(s, a) :: s.sessions[a].dropped) ==> Alive(s, s.slots[k])
  {
    RunKeepsClaimants(Initial, steps, s);
  }

  // ----------------------------------------------------------- add_subscriber

  type SubscriberId = nat

  /** One session's command channel and controller. `queued` are the
      `AddSubscriber` commands in flight; `inserted` every id the controller put
      into the fan-out; `acked` the ids it acknowledged; `returned` what callers
      got back. */
  datatype Adds = Adds(
    nextId: SubscriberId,
    running: bool,
    queued: seq<SubscriberId>,
    inserted: set<SubscriberId>,
    acked: set<SubscriberId>,
    returned: map<SubscriberId, bool>)

  datatype AddStep = Send | Handle | Exit | Return(id: SubscriberId)

  predicate AddEnabled(s: Adds, st: AddStep) {
    match st
    case Send => true
    case Handle => s.running && s.queued != []
    case Exit => s.running
    case Return(id) => id < s.nextId && id !in s.returned && (id in s.acked || id !in s.queued)
  }

  /** `Send` on a closed channel and an ack dropped unanswered both make
      `add_subscriber` return `SessionClosed`. */
  function AddApply(s: Adds, st: AddStep): Adds
    requires AddEnabled(s, st)
  {
    match st
    case Send =>
      if s.running then s.(nextId := s.nextId + 1, queued := s.queued + [s.nextId])
      else s.(nextId := s.nextId + 1)
    case Handle =>
      var id := s.queued[0];
      s.(queued := s.queued[1..], inserted := s.inserted + {id}, acked := s.acked + {id})
    case Exit => s.(running := false, queued := [])
    case Return(id) => s.(returned := s.returned[id := id in s.acked])
  }

  predicate AddRuns(s: Adds, steps: seq<AddStep>, t: Adds)
    decreases |steps|
  {
    if steps == [] then s == t
    else AddEnabled(s, steps[0]) && AddRuns(AddApply(s, steps[0]), steps[1..], t)
  }

  predicate AddsSound(s: Adds) {
    && s.acked == s.inserted
    && (forall id | id in s.returned && s.returned[id] :: id in s.acked)
    && (forall n | 0 <= n < |s.queued| :: s.queued[n] < s.nextId && s.queued[n] !in s.inserted && s.queued[n] !in s.returned)
    && (forall m, n | 0 <= m < n < |s.queued| :: s.queued[m] != s.queued[n])
    && (forall id | id in s.inserted :: id < s.nextId)
    && (forall id | id in s.returned :: id < s.nextId)
    && (forall id | id in s.returned && !s.returned[id] :: id !in s.inserted)
    && (!s.running ==> s.queued == [])
  }

  lemma {:induction false} AddRunsSound(s: Adds, steps: seq<AddStep>, t: Adds)
    requires AddsSound(s) && AddRuns(s, steps, t)
    ensures AddsSound(t)
    decreases |steps|
  {
    if steps != [] {
      AddRunsSound(AddApply(s, steps[0]), steps[1..], t);
    }
  }

  const NoAdds: Adds := Adds(0, true, [], {}, {}, map[])

  /** `add_subscriber` returns `Ok` only for an id the controller has inserted,
      and `SessionClosed` only for an id it never inserted. */
  lemma AddReturnsOkIffInserted(steps: seq<AddStep>, s: Adds, id: SubscriberId)
    requires AddRuns(NoAdds, steps, s) && id in s.returned
    ensures s.returned[id] <==> id in s.inserted
  {
    AddRunsSound(NoAdds, steps, s);
  }

  /** A running controller that is left alone inserts and acknowledges: after the
      commands ahead of it, an add returns `Ok`. */
  lemma {:induction false} AddSucceedsWhileRunning(s: Adds, id: SubscriberId) returns (steps: seq<AddStep>, t: Adds)
    requires s.running && id in s.queued && id < s.nextId && id !in s.returned
    ensures AddRuns(s, steps, t) && id in t.returned && t.returned[id] && id in t.inserted
    decreases |s.queued|
  {
    var s' := AddApply(s, Handle);
    if s.queued[0] == id {
      t := AddApply(s', Return(id));
      assert AddRuns(t, [], t) && [Return(id)][1..] == [];
      assert AddRuns(s', [Return(id)], t);
      steps := [Return(id)];
    } else {
      assert id in s'.queued;
      steps, t := AddSucceedsWhileRunning(s', id);
    }
    assert ([Handle] + steps)[1..] == steps;
    steps := [Handle] + steps;
  }
}
