/** Opening a live session: probe and share, else create, claim and start, with
    any number of openers racing, controllers exiting and referrers leaving. */
module Opening {
  import opened Events
  import R = Registry

  type OpenerId = nat

  /** A session's controller: not spawned yet, handling commands, or gone (after
      a teardown, or because the provider refused the open). */
  datatype Controller = Unstarted | Running | Exited

  /** Where one open is; `ref` is the strong reference it holds. */
  datatype Pc =
    | Probing(key: R.Key)
    | Sharing(key: R.Key, session: R.SessionId, ref: R.RefId)
    | Creating(key: R.Key)
    | Claiming(key: R.Key, session: R.SessionId, ref: R.RefId)
    | Deferring(key: R.Key, session: R.SessionId, ref: R.RefId)
    | Starting(key: R.Key, session: R.SessionId, ref: R.RefId)
    | Opened(key: R.Key, session: R.SessionId, ref: R.RefId)
    | SessionClosed(key: R.Key, session: R.SessionId)
    | ProviderFailed(key: R.Key, session: R.SessionId)

  predicate InFlight(p: Pc) {
    p.Sharing? || p.Claiming? || p.Deferring? || p.Starting?
  }

  /** Working on a session of its own that has no controller yet. */
  predicate Own(p: Pc) {
    p.Claiming? || p.Starting?
  }

  datatype World = World(reg: R.State, ctl: map<R.SessionId, Controller>, openers: map<OpenerId, Pc>)

  const Initial: World := World(R.Initial, map[], map[])

  datatype Step =
    | Open(o: OpenerId, key: R.Key)
    | Probe(o: OpenerId, newRef: R.RefId)
    | Ask(o: OpenerId)
    | Create(o: OpenerId, session: R.SessionId, newRef: R.RefId)
    | Claim(o: OpenerId, newRef: R.RefId)
    | Connect(o: OpenerId, ok: bool)
    | ControllerExit(session: R.SessionId)
    | Referrer(st: R.Step)

  predicate HeldByOpener(w: World, r: R.RefId) {
    exists o :: o in w.openers && InFlight(w.openers[o]) && w.openers[o].ref == r
  }

  predicate Enabled(w: World, st: Step) {
    match st
    case Open(o, _) => o !in w.openers
    case Probe(o, newRef) => o in w.openers && w.openers[o].Probing? && newRef !in w.reg.refs
    case Ask(o) =>
      && o in w.openers && (w.openers[o].Sharing? || w.openers[o].Deferring?)
      && w.openers[o].session in w.ctl && w.ctl[w.openers[o].session] != Unstarted
      && w.openers[o].ref in w.reg.refs
    case Create(o, a, newRef) =>
      o in w.openers && w.openers[o].Creating? && a !in w.reg.sessions && newRef !in w.reg.refs
    case Claim(o, newRef) =>
      o in w.openers && w.openers[o].Claiming? && R.Enabled(w.reg, R.Claim(w.openers[o].ref, newRef))
    case Connect(o, _) => o in w.openers && w.openers[o].Starting? && w.openers[o].ref in w.reg.refs
    case ControllerExit(a) => a in w.ctl && w.ctl[a] == Running
    case Referrer(s) =>
      && R.Enabled(w.reg, s) && (s.Clone? || s.Release? || s.RunDrop?)
      && (s.Release? ==> !HeldByOpener(w, s.ref))
  }

  function Moved(w: World, o: OpenerId, p: Pc): World {
    w.(openers := w.openers[o := p])
  }

  function Released(w: World, r: R.RefId): World
    requires r in w.reg.refs
  {
    w.(reg := R.Apply(w.reg, R.Release(r)))
  }

  /** A share that finds the controller gone goes on to create; an opener that
      lost the claim to a session whose controller is gone gives up. */
  function Apply(w: World, st: Step): World
    requires Enabled(w, st)
  {
    match st
    case Open(o, k) => Moved(w, o, Probing(k))
    case Probe(o, newRef) =>
      var k := w.openers[o].key;
      if R.Occupied(w.reg, k)
      then Moved(w.(reg := R.Apply(w.reg, R.Probe(k, newRef))), o, Sharing(k, w.reg.slots[k], newRef))
      else Moved(w, o, Creating(k))
    case Ask(o) =>
      var p := w.openers[o];
      if w.ctl[p.session] == Running then Moved(w, o, Opened(p.key, p.session, p.ref))
      else Moved(Released(w, p.ref), o, if p.Sharing? then Creating(p.key) else SessionClosed(p.key, p.session))
    case Create(o, a, newRef) =>
      var k := w.openers[o].key;
      Moved(w.(reg := R.Apply(w.reg, R.Create(k, a, newRef)), ctl := w.ctl[a := Unstarted]), o, Claiming(k, a, newRef))
    case Claim(o, newRef) =>
      var p := w.openers[o];
      var k := w.reg.sessions[w.reg.refs[p.ref]].key;
      var w' := w.(reg := R.Apply(w.reg, R.Claim(p.ref, newRef)));
      if R.Occupied(w.reg, k) then Moved(Released(w', p.ref), o, Deferring(p.key, w.reg.slots[k], newRef))
      else Moved(w', o, Starting(p.key, p.session, p.ref))
    case Connect(o, ok) =>
      var p := w.openers[o];
      if ok then Moved(w.(ctl := w.ctl[p.session := Running]), o, Opened(p.key, p.session, p.ref))
      else Moved(Released(w.(ctl := w.ctl[p.session := Exited]), p.ref), o, ProviderFailed(p.key, p.session))
    case ControllerExit(a) => w.(ctl := w.ctl[a := Exited])
    case Referrer(s) => w.(reg := R.Apply(w.reg, s))
  }

  predicate Runs(w: World, steps: seq<Step>, t: World)
    decreases |steps|
  {
    if steps == [] then w == t
    else Enabled(w, steps[0]) && Runs(Apply(w, steps[0]), steps[1..], t)
  }

  // ------------------------------------------------------------------ the invariant

  predicate HasSession(p: Pc) {
    !p.Probing? && !p.Creating?
  }

  /** What is true of one open, wherever it is. */
  predicate PcOk(w: World, p: Pc) {
    HasSession(p) ==>
      && p.session in w.reg.sessions && w.reg.sessions[p.session].key == p.key && p.session in w.ctl
      && (InFlight(p) ==> p.ref in w.reg.refs && w.reg.refs[p.ref] == p.session)
      && (Own(p) ==> w.ctl[p.session] == Unstarted)
      && (p.Opened? ==> w.ctl[p.session] != Unstarted)
      && (p.SessionClosed? || p.ProviderFailed? ==> w.ctl[p.session] == Exited)
      && (p.Claiming? ==> !w.reg.sessions[p.session].claimed)
      && (p.Starting? || p.Sharing? || p.Deferring? || p.Opened? || p.SessionClosed? ==> w.reg.sessions[p.session].claimed)
  }

  /** Two opens never share a reference, nor a session of their own. */
  predicate PairOk(p: Pc, q: Pc) {
    && (InFlight(p) && InFlight(q) ==> p.ref != q.ref)
    && (Own(p) && Own(q) ==> p.session != q.session)
  }

  ghost predicate Good(w: World) {
    && R.SlotsPointToClaimants(w.reg) && w.ctl.Keys == w.reg.sessions.Keys
    && (forall o | o in w.openers :: PcOk(w, w.openers[o]))
    && (forall o, o' | o in w.openers && o' in w.openers && o != o' :: PairOk(w.openers[o], w.openers[o']))
  }

  predicate CtlEvolves(w: World, w': World, a: Option<R.SessionId>) {
    forall s | s in w.ctl ::
      && s in w'.ctl
      && (w'.ctl[s] == w.ctl[s] || (w.ctl[s] == Running && w'.ctl[s] == Exited) || (a == Some(s) && w.ctl[s] == Unstarted))
  }

  /** How the world may change under the opens that do not take the step: at most
      reference `r` is dropped, and only session `a` is claimed or started. */
  predicate Evolves(w: World, w': World, r: Option<R.RefId>, a: Option<R.SessionId>) {
    R.Frame(w.reg, w'.reg, r, a) && CtlEvolves(w, w', a)
  }

  lemma PcStays(w: World, w': World, r: Option<R.RefId>, a: Option<R.SessionId>, p: Pc)
    requires PcOk(w, p) && Evolves(w, w', r, a)
    requires InFlight(p) ==> r != Some(p.ref)
    requires Own(p) ==> a != Some(p.session)
    ensures PcOk(w', p)
  {
  }

  /** One open moved to `p`; the others stay where they are. */
  lemma MoveKeepsGood(w: World, w': World, o: OpenerId, p: Pc, r: Option<R.RefId>, a: Option<R.SessionId>)
    requires Good(w) && R.SlotsPointToClaimants(w'.reg) && w'.ctl.Keys == w'.reg.sessions.Keys
    requires w'.openers == w.openers[o := p] && Evolves(w, w', r, a) && PcOk(w', p)
    requires r.Some? ==> o in w.openers && InFlight(w.openers[o]) && w.openers[o].ref == r.value
    requires a.Some? ==> o in w.openers && Own(w.openers[o]) && w.openers[o].session == a.value
    requires InFlight(p) ==> p.ref !in w.reg.refs || (o in w.openers && InFlight(w.openers[o]) && w.openers[o].ref == p.ref)
    requires Own(p) ==> p.session !in w.reg.sessions || (o in w.openers && Own(w.openers[o]) && w.openers[o].session == p.session)
    ensures Good(w')
  {
    forall o' | o' in w'.openers
      ensures PcOk(w', w'.openers[o'])
      ensures o' != o ==> PairOk(p, w'.openers[o']) && PairOk(w'.openers[o'], p)
    {
      if o' != o {
        PcStays(w, w', r, a, w.openers[o']);
      }
    }
  }

  // ------------------------------------------------------------------ step by step

  lemma ProbeKeepsGood(w: World, o: OpenerId, newRef: R.RefId)
    requires Good(w) && Enabled(w, Probe(o, newRef)) && R.Occupied(w.reg, w.openers[o].key)
    ensures Good(Apply(w, Probe(o, newRef)))
  {
    var k := w.openers[o].key;
    R.StepKeepsClaimants(w.reg, R.Probe(k, newRef));
    R.StepFrame(w.reg, R.Probe(k, newRef));
    MoveKeepsGood(w, Apply(w, Probe(o, newRef)), o, Sharing(k, w.reg.slots[k], newRef), None, None);
  }

  lemma VainProbeKeepsGood(w: World, o: OpenerId, newRef: R.RefId)
    requires Good(w) && Enabled(w, Probe(o, newRef)) && !R.Occupied(w.reg, w.openers[o].key)
    ensures Good(Apply(w, Probe(o, newRef)))
  {
    MoveKeepsGood(w, Apply(w, Probe(o, newRef)), o, Creating(w.openers[o].key), None, None);
  }

  /** The controller answered. */
  lemma JoinKeepsGood(w: World, o: OpenerId)
    requires Good(w) && Enabled(w, Ask(o)) && w.ctl[w.openers[o].session] == Running
    ensures Good(Apply(w, Ask(o)))
  {
    var w', p := Apply(w, Ask(o)), w.openers[o];
    MoveKeepsGood(w, w', o, Opened(p.key, p.session, p.ref), None, None);
  }

  /** The controller is gone. */
  lemma RefusalKeepsGood(w: World, o: OpenerId)
    requires Good(w) && Enabled(w, Ask(o)) && w.ctl[w.openers[o].session] == Exited
    ensures Good(Apply(w, Ask(o)))
  {
    var w', p := Apply(w, Ask(o)), w.openers[o];
    R.StepKeepsClaimants(w.reg, R.Release(p.ref));
    R.StepFrame(w.reg, R.Release(p.ref));
    MoveKeepsGood(w, w', o, w'.openers[o], Some(p.ref), None);
  }

  lemma CreateKeepsGood(w: World, o: OpenerId, a: R.SessionId, newRef: R.RefId)
    requires Good(w) && Enabled(w, Create(o, a, newRef))
    ensures Good(Apply(w, Create(o, a, newRef)))
  {
    var w' := Apply(w, Create(o, a, newRef));
    var st := R.Create(w.openers[o].key, a, newRef);
    R.StepKeepsClaimants(w.reg, st);
    R.StepFrame(w.reg, st);
    MoveKeepsGood(w, w', o, w'.openers[o], None, None);
  }

  lemma WonClaimKeepsGood(w: World, o: OpenerId, newRef: R.RefId)
    requires Good(w) && Enabled(w, Claim(o, newRef)) && !R.Occupied(w.reg, w.openers[o].key)
    ensures Good(Apply(w, Claim(o, newRef)))
  {
    var w', p := Apply(w, Claim(o, newRef)), w.openers[o];
    R.StepKeepsClaimants(w.reg, R.Claim(p.ref, newRef));
    R.StepFrame(w.reg, R.Claim(p.ref, newRef));
    MoveKeepsGood(w, w', o, Starting(p.key, p.session, p.ref), None, Some(p.session));
  }

  /** What is left of a lost claim: a reference to the winner instead of one's own. */
  lemma LostClaimEffect(s: R.State, r: R.RefId, newRef: R.RefId)
    requires R.SlotsPointToClaimants(s) && R.Enabled(s, R.Claim(r, newRef)) && R.Occupied(s, s.sessions[s.refs[r]].key)
    ensures var s' := R.Apply(R.Apply(s, R.Claim(r, newRef)), R.Release(r));
      && R.SlotsPointToClaimants(s') && s'.sessions == s.sessions && R.Frame(s, s', Some(r), None)
      && newRef in s'.refs && s'.refs[newRef] == s.slots[s.sessions[s.refs[r]].key]
  {
    R.StepKeepsClaimants(s, R.Claim(r, newRef));
    R.StepKeepsClaimants(R.Apply(s, R.Claim(r, newRef)), R.Release(r));
  }

  lemma LostClaimKeepsGood(w: World, o: OpenerId, newRef: R.RefId)
    requires Good(w) && Enabled(w, Claim(o, newRef)) && R.Occupied(w.reg, w.openers[o].key)
    ensures Good(Apply(w, Claim(o, newRef)))
  {
    var w', p := Apply(w, Claim(o, newRef)), w.openers[o];
    LostClaimEffect(w.reg, p.ref, newRef);
    MoveKeepsGood(w, w', o, Deferring(p.key, w.reg.slots[p.key], newRef), Some(p.ref), None);
  }

  lemma ConnectedKeepsGood(w: World, o: OpenerId)
    requires Good(w) && Enabled(w, Connect(o, true))
    ensures Good(Apply(w, Connect(o, true)))
  {
    var p := w.openers[o];
    MoveKeepsGood(w, Apply(w, Connect(o, true)), o, Opened(p.key, p.session, p.ref), None, Some(p.session));
  }

  lemma FailedKeepsGood(w: World, o: OpenerId)
    requires Good(w) && Enabled(w, Connect(o, false))
    ensures Good(Apply(w, Connect(o, false)))
  {
    var p := w.openers[o];
    R.StepKeepsClaimants(w.reg, R.Release(p.ref));
    R.StepFrame(w.reg, R.Release(p.ref));
    MoveKeepsGood(w, Apply(w, Connect(o, false)), o, ProviderFailed(p.key, p.session), Some(p.ref), Some(p.session));
  }

  /** Nobody moved. */
  lemma QuietKeepsGood(w: World, w': World, r: Option<R.RefId>)
    requires Good(w) && R.SlotsPointToClaimants(w'.reg) && w'.ctl.Keys == w'.reg.sessions.Keys
    requires w'.openers == w.openers && Evolves(w, w', r, None) && (r.Some? ==> !HeldByOpener(w, r.value))
    ensures Good(w')
  {
    forall o | o in w'.openers
      ensures PcOk(w', w'.openers[o])
    {
      PcStays(w, w', r, None, w.openers[o]);
    }
  }

  lemma ReferrerKeepsGood(w: World, s: R.Step)
    requires Good(w) && Enabled(w, Referrer(s))
    ensures Good(Apply(w, Referrer(s)))
  {
    R.StepKeepsClaimants(w.reg, s);
    R.StepFrame(w.reg, s);
    QuietKeepsGood(w, Apply(w, Referrer(s)), if s.Release? then Some(s.ref) else None);
  }

  lemma StepKeepsGood(w: World, st: Step)
    requires Good(w) && Enabled(w, st)
    ensures Good(Apply(w, st))
  {
    match st
    case Open(o, k) => MoveKeepsGood(w, Apply(w, st), o, Probing(k), None, None);
    case Probe(o, newRef) =>
      if R.Occupied(w.reg, w.openers[o].key) {
        ProbeKeepsGood(w, o, newRef);
      } else {
        VainProbeKeepsGood(w, o, newRef);
      }
    case Ask(o) =>
      if w.ctl[w.openers[o].session] == Running {
        JoinKeepsGood(w, o);
      } else {
        RefusalKeepsGood(w, o);
      }
    case Create(o, a, newRef) => CreateKeepsGood(w, o, a, newRef);
    case Claim(o, newRef) =>
      if R.Occupied(w.reg, w.openers[o].key) {
        LostClaimKeepsGood(w, o, newRef);
      } else {
        WonClaimKeepsGood(w, o, newRef);
      }
    case Connect(o, ok) =>
      if ok {
        ConnectedKeepsGood(w, o);
      } else {
        FailedKeepsGood(w, o);
      }
    case ControllerExit(a) => QuietKeepsGood(w, Apply(w, st), None);
    case Referrer(s) => ReferrerKeepsGood(w, s);
  }

  lemma {:induction false} RunKeepsGood(w: World, steps: seq<Step>, t: World)
    requires Good(w) && Runs(w, steps, t)
    ensures Good(t)
    decreases |steps|
  {
    if steps != [] {
      StepKeepsGood(w, steps[0]);
      RunKeepsGood(Apply(w, steps[0]), steps[1..], t);
    }
  }

  // ------------------------------------------------------------------------ theorems

  /** In every run, an open that succeeded holds a session that claimed its key
      and whose controller was running; one refused with `SessionClosed` had lost
      the claim to a session whose controller is gone, for good. */
  lemma OutcomesAreJustified(steps: seq<Step>, w: World, o: OpenerId)
    requires Runs(Initial, steps, w) && o in w.openers && (w.openers[o].Opened? || w.openers[o].SessionClosed?)
    ensures var a := w.openers[o].session;
      && a in w.reg.sessions && w.reg.sessions[a].key == w.openers[o].key && w.reg.sessions[a].claimed && a in w.ctl
      && (if w.openers[o].Opened? then w.ctl[a] != Unstarted else w.ctl[a] == Exited)
  {
    RunKeepsGood(Initial, steps, w);
  }

  /** A referrer keeps holding, through `r`, a session of `k` whose controller is
      gone. */
  predicate Stuck(w: World, k: R.Key, a: R.SessionId, r: R.RefId) {
    && k in w.reg.slots && w.reg.slots[k] == a && r in w.reg.refs && w.reg.refs[r] == a
    && a in w.ctl && w.ctl[a] == Exited && !HeldByOpener(w, r)
  }

  predicate Blocked(p: Pc, a: R.SessionId) {
    p.Probing? || p.Creating? || p.Claiming? || ((p.Sharing? || p.Deferring? || p.SessionClosed?) && p.session == a)
  }

  ghost predicate AllBlocked(w: World, k: R.Key, a: R.SessionId, before: set<OpenerId>) {
    forall o | o in w.openers && o !in before && w.openers[o].key == k :: Blocked(w.openers[o], a)
  }

  lemma StuckIsOccupied(w: World, k: R.Key, a: R.SessionId, r: R.RefId)
    requires Stuck(w, k, a, r)
    ensures R.Occupied(w.reg, k) && R.Alive(w.reg, a)
  {
  }

  /** The registry's part of a step, if it has one, as its own steps. */
  lemma SlotSurvives(w: World, st: Step, k: R.Key, r: R.RefId)
    requires Good(w) && Enabled(w, st) && k in w.reg.slots && r in w.reg.refs && w.reg.refs[r] == w.reg.slots[k]
    requires st != Referrer(R.Release(r)) && !HeldByOpener(w, r)
    ensures var reg := Apply(w, st).reg;
      k in reg.slots && reg.slots[k] == w.reg.slots[k] && r in reg.refs && reg.refs[r] == w.reg.slots[k]
  {
    match st
    case Probe(o, newRef) => R.HeldSlotStays(w.reg, R.Probe(w.openers[o].key, newRef), k, r);
    case Create(o, a, newRef) => R.HeldSlotStays(w.reg, R.Create(w.openers[o].key, a, newRef), k, r);
    case Claim(o, newRef) =>
      R.HeldSlotStays(w.reg, R.Claim(w.openers[o].ref, newRef), k, r);
      assert InFlight(w.openers[o]);
    case Ask(o) => assert InFlight(w.openers[o]);
    case Connect(o, _) => assert InFlight(w.openers[o]);
    case Referrer(s) => R.HeldSlotStays(w.reg, s, k, r);
    case _ =>
  }

  lemma StillUnheld(w: World, st: Step, r: R.RefId)
    requires Enabled(w, st) && r in w.reg.refs && !HeldByOpener(w, r)
    ensures !HeldByOpener(Apply(w, st), r)
  {
  }

  /** What anybody else does to a stuck key: nothing. */
  lemma StepKeepsStuck(w: World, st: Step, k: R.Key, a: R.SessionId, r: R.RefId)
    requires Good(w) && Enabled(w, st) && Stuck(w, k, a, r) && st != Referrer(R.Release(r))
    ensures Stuck(Apply(w, st), k, a, r)
  {
    SlotSurvives(w, st, k, r);
    StillUnheld(w, st, r);
    ExitedStays(w, st, a);
  }

  lemma ExitedStays(w: World, st: Step, a: R.SessionId)
    requires Good(w) && Enabled(w, st) && a in w.ctl && w.ctl[a] == Exited
    ensures a in Apply(w, st).ctl && Apply(w, st).ctl[a] == Exited
  {
  }

  lemma StepKeepsBlocked(w: World, st: Step, k: R.Key, a: R.SessionId, r: R.RefId, before: set<OpenerId>)
    requires Good(w) && Enabled(w, st) && Stuck(w, k, a, r) && AllBlocked(w, k, a, before)
    ensures AllBlocked(Apply(w, st), k, a, before)
  {
    StuckIsOccupied(w, k, a, r);
  }

  lemma {:induction false} RunKeepsBlocked(
    w: World, steps: seq<Step>, t: World, k: R.Key, a: R.SessionId, r: R.RefId, before: set<OpenerId>)
    requires Good(w) && Runs(w, steps, t) && Stuck(w, k, a, r) && AllBlocked(w, k, a, before)
    requires Referrer(R.Release(r)) !in steps
    ensures Stuck(t, k, a, r) && AllBlocked(t, k, a, before)
    decreases |steps|
  {
    if steps != [] {
      StepKeepsGood(w, steps[0]);
      StepKeepsStuck(w, steps[0], k, a, r);
      StepKeepsBlocked(w, steps[0], k, a, r, before);
      RunKeepsBlocked(Apply(w, steps[0]), steps[1..], t, k, a, r, before);
    }
  }

  /** One lingering referrer blocks a key: as long as somebody holds a session
      whose controller has exited, no open of that key begun since succeeds,
      reaches the provider or replaces the session, however many try; those that
      finish are refused with `SessionClosed`. */
  lemma LingeringReferrerBlocksTheKey(
    before: seq<Step>, w: World, after: seq<Step>, t: World, k: R.Key, a: R.SessionId, r: R.RefId, o: OpenerId)
    requires Runs(Initial, before, w) && Runs(w, after, t) && Stuck(w, k, a, r)
    requires Referrer(R.Release(r)) !in after
    requires o in t.openers && o !in w.openers && t.openers[o].key == k
    ensures Stuck(t, k, a, r) && Blocked(t.openers[o], a)
  {
    RunKeepsGood(Initial, before, w);
    RunKeepsBlocked(w, after, t, k, a, r, w.openers.Keys);
  }

  // ------------------------------------------------------------------ one open alone

  lemma RunsCons(w: World, st: Step, rest: seq<Step>, t: World)
    requires Enabled(w, st) && Runs(Apply(w, st), rest, t)
    ensures Runs(w, [st] + rest, t)
  {
    assert ([st] + rest)[1..] == rest;
  }

  /** What an open that nobody interferes with gets: shares a session whose
      controller runs, is refused by one whose controller is gone, and depends on
      the provider if there is none. */
  function Outcome(w: World, k: R.Key, own: R.SessionId, mine: R.RefId, shared: R.RefId, ok: bool): Pc
    requires R.Occupied(w.reg, k) ==> w.reg.slots[k] in w.ctl
  {
    if R.Occupied(w.reg, k) then
      var a := w.reg.slots[k];
      if w.ctl[a] == Running then Opened(k, a, shared) else SessionClosed(k, a)
    else if ok then Opened(k, own, mine)
    else ProviderFailed(k, own)
  }

  /** An open that succeeded holds, through its reference, a session whose
      controller is running. */
  predicate ServedBy(w: World, o: OpenerId)
    requires o in w.openers
  {
    var p := w.openers[o];
    p.Opened? ==>
      && p.ref in w.reg.refs && w.reg.refs[p.ref] == p.session && p.session in w.ctl && w.ctl[p.session] == Running
  }

  predicate NobodyStarting(w: World, k: R.Key) {
    R.Occupied(w.reg, k) ==> w.reg.slots[k] in w.ctl && w.ctl[w.reg.slots[k]] != Unstarted
  }

  lemma CreateKeepsOccupied(w: World, o: OpenerId, k: R.Key, a: R.SessionId, r: R.RefId)
    requires Good(w) && Enabled(w, Create(o, a, r)) && w.openers[o].key == k
    ensures var w' := Apply(w, Create(o, a, r));
      && w'.reg.slots == w.reg.slots && (R.Occupied(w'.reg, k) <==> R.Occupied(w.reg, k))
      && (R.Occupied(w.reg, k) ==> w.reg.slots[k] != a)
  {
    var w' := Apply(w, Create(o, a, r));
    if k in w.reg.slots {
      var b := w.reg.slots[k];
      if x :| x in w.reg.refs && w.reg.refs[x] == b {
        assert x in w'.reg.refs && w'.reg.refs[x] == b;
      }
      if x :| x in w'.reg.refs && w'.reg.refs[x] == b {
        assert x != r ==> x in w.reg.refs && w.reg.refs[x] == b;
      }
    }
  }

  /** The claim and what follows it. */
  lemma ClaimingAlone(w: World, o: OpenerId, k: R.Key, a: R.SessionId, r: R.RefId, r': R.RefId, ok: bool)
      returns (steps: seq<Step>, t: World)
    requires Good(w) && o in w.openers && w.openers[o] == Claiming(k, a, r) && NobodyStarting(w, k) && r' !in w.reg.refs
    ensures Runs(w, steps, t) && o in t.openers && t.openers[o] == Outcome(w, k, a, r, r', ok) && ServedBy(t, o)
  {
    var w' := Apply(w, Claim(o, r'));
    var last := if R.Occupied(w.reg, k) then Ask(o) else Connect(o, ok);
    t := Apply(w', last);
    assert Runs(t, [], t);
    RunsCons(w', last, [], t);
    RunsCons(w, Claim(o, r'), [last], t);
    steps := [Claim(o, r')] + [last];
  }

  /** From the point of creating its own session. */
  lemma CreatingAlone(w: World, o: OpenerId, k: R.Key, a: R.SessionId, r: R.RefId, r': R.RefId, ok: bool)
      returns (steps: seq<Step>, t: World)
    requires Good(w) && o in w.openers && w.openers[o] == Creating(k) && NobodyStarting(w, k)
    requires a !in w.reg.sessions && r !in w.reg.refs && r' !in w.reg.refs && r != r'
    ensures Runs(w, steps, t) && o in t.openers && t.openers[o] == Outcome(w, k, a, r, r', ok) && ServedBy(t, o)
  {
    var w' := Apply(w, Create(o, a, r));
    CreateKeepsGood(w, o, a, r);
    CreateKeepsOccupied(w, o, k, a, r);
    steps, t := ClaimingAlone(w', o, k, a, r, r', ok);
    RunsCons(w, Create(o, a, r), steps, t);
    steps := [Create(o, a, r)] + steps;
  }

  /** A probe that found a session whose controller is gone leaves no trace. */
  lemma ProbedInVain(w: World, o: OpenerId, k: R.Key, r: R.RefId)
    requires Good(w) && o in w.openers && w.openers[o] == Probing(k) && r !in w.reg.refs
    requires R.Occupied(w.reg, k) && w.ctl[w.reg.slots[k]] == Exited
    ensures var w1 := Apply(w, Probe(o, r));
      && Enabled(w1, Ask(o)) && Apply(w1, Ask(o)) == Moved(w, o, Creating(k))
  {
    var w1 := Apply(w, Probe(o, r));
    assert w1.reg.refs - {r} == w.reg.refs;
    assert Apply(w1, Ask(o)).reg == w.reg;
  }

  lemma SharingAlone(w: World, o: OpenerId, k: R.Key, r: R.RefId) returns (steps: seq<Step>, t: World)
    requires Good(w) && o in w.openers && w.openers[o] == Probing(k) && r !in w.reg.refs
    requires R.Occupied(w.reg, k) && w.ctl[w.reg.slots[k]] == Running
    ensures Runs(w, steps, t) && o in t.openers && t.openers[o] == Opened(k, w.reg.slots[k], r) && ServedBy(t, o)
  {
    var w' := Apply(w, Probe(o, r));
    t := Apply(w', Ask(o));
    assert Runs(t, [], t);
    RunsCons(w', Ask(o), [], t);
    RunsCons(w, Probe(o, r), [Ask(o)], t);
    steps := [Probe(o, r)] + [Ask(o)];
  }

  lemma RefusedAlone(w: World, o: OpenerId, k: R.Key, a: R.SessionId, r: R.RefId, r': R.RefId, ok: bool)
      returns (steps: seq<Step>, t: World)
    requires Good(w) && o in w.openers && w.openers[o] == Probing(k)
    requires R.Occupied(w.reg, k) && w.ctl[w.reg.slots[k]] == Exited
    requires a !in w.reg.sessions && r !in w.reg.refs && r' !in w.reg.refs && r != r'
    ensures Runs(w, steps, t) && o in t.openers && t.openers[o] == SessionClosed(k, w.reg.slots[k])
  {
    var w1 := Apply(w, Probe(o, r));
    ProbeKeepsGood(w, o, r);
    ProbedInVain(w, o, k, r);
    RefusalKeepsGood(w1, o);
    steps, t := CreatingAlone(Apply(w1, Ask(o)), o, k, a, r, r', ok);
    RunsCons(w1, Ask(o), steps, t);
    RunsCons(w, Probe(o, r), [Ask(o)] + steps, t);
    steps := [Probe(o, r)] + ([Ask(o)] + steps);
  }

  lemma FreshAlone(w: World, o: OpenerId, k: R.Key, a: R.SessionId, r: R.RefId, r': R.RefId, ok: bool)
      returns (steps: seq<Step>, t: World)
    requires Good(w) && o in w.openers && w.openers[o] == Probing(k) && !R.Occupied(w.reg, k)
    requires a !in w.reg.sessions && r !in w.reg.refs && r' !in w.reg.refs && r != r'
    ensures Runs(w, steps, t) && o in t.openers
    ensures t.openers[o] == (if ok then Opened(k, a, r) else ProviderFailed(k, a)) && ServedBy(t, o)
  {
    VainProbeKeepsGood(w, o, r);
    steps, t := CreatingAlone(Apply(w, Probe(o, r)), o, k, a, r, r', ok);
    RunsCons(w, Probe(o, r), steps, t);
    steps := [Probe(o, r)] + steps;
  }

  /** An uncontended open is refused with `SessionClosed` if and only if somebody
      still holds a session of its key whose controller has exited: however long
      ago, and although nothing would stop it from opening a fresh one. */
  lemma UncontendedOpenOutcome(
    before: seq<Step>, w: World, o: OpenerId, k: R.Key, a: R.SessionId, r: R.RefId, r': R.RefId, ok: bool)
      returns (steps: seq<Step>, t: World)
    requires Runs(Initial, before, w) && o !in w.openers && NobodyStarting(w, k)
    requires a !in w.reg.sessions && r !in w.reg.refs && r' !in w.reg.refs && r != r'
    ensures Runs(w, steps, t) && o in t.openers && t.openers[o] == Outcome(w, k, a, r, r, ok) && ServedBy(t, o)
    ensures t.openers[o].SessionClosed? <==> R.Occupied(w.reg, k) && w.ctl[w.reg.slots[k]] == Exited
  {
    RunKeepsGood(Initial, before, w);
    StepKeepsGood(w, Open(o, k));
    var w' := Apply(w, Open(o, k));
    if !R.Occupied(w.reg, k) {
      steps, t := FreshAlone(w', o, k, a, r, r', ok);
    } else if w.ctl[w.reg.slots[k]] == Running {
      steps, t := SharingAlone(w', o, k, r);
    } else {
      steps, t := RefusedAlone(w', o, k, a, r, r', ok);
    }
    RunsCons(w, Open(o, k), steps, t);
    steps := [Open(o, k)] + steps;
  }
}
