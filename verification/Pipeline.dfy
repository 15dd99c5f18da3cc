/** The composed live path of one client: a fan-out referrer per subscription,
    the multiplexer, its resume ring and whatever consumer is attached, under
    every interleaving of fan-outs, drains, detaches, takes, interrupted
    flushes, subscriptions and source exits. */
module Pipeline {
  import opened Events
  import opened ClientRings
  import opened Coalescing
  import opened ClientControllers
  import F = FanOuts

  datatype Key = Key(instrument: Instrument, kind: EventKind)

  /** `Exited` once the authoritative controller, and with it the fan-out, is
      gone; a gap still owed at that moment stays in `ref.pending` for good. */
  datatype SourceState = Running | Exited

  /** One held subscription. `fanned` is every event the source has fanned out
      since it joined, `next` the next `seq` the source will stamp. */
  datatype Link = Link(ref: F.Referrer, fanned: seq<MarketEvent>, next: nat, source: SourceState, provider: string)

  /** `work` is what the controller task is in the middle of delivering: the
      event just routed, or what is left of a flush. `subs` records every
      subscription ever made; `inputs` and `synthesised` count what entered
      delivery and the gaps that flushes made. */
  datatype Sys = Sys(
    mux: Mux,
    open: bool,
    work: seq<Item>,
    links: map<Key, Link>,
    subs: seq<Key>,
    inputs: nat,
    synthesised: nat,
    channelCapacity: nat)

  function Init(ringCapacity: nat, channelCapacity: nat): Sys {
    Sys(NewMux(ringCapacity), false, [], map[], [], 0, 0, channelCapacity)
  }

  datatype Step =
    | Fanned(key: Key, ev: MarketEvent)
    | SourceExited(key: Key)
    | Routed(key: Key)
    | Delivered
    | ConsumerGone
    | Taken(gaps: seq<InstrumentGap>)
    | Subscribed(key: Key, provider: string, next: nat, replay: Option<MarketEvent>)
    | Unsubscribed(key: Key, at: Timestamp)
    | SubstreamEnded(key: Key, at: Timestamp)
    | Closing(at: Timestamp)

  function EndOfSubscription(k: Key, provider: string, at: Timestamp): Item {
    Item(Control(at, at, SYNTHETIC, SubscriptionChanged(provider, k.instrument, k.kind, false)), provider)
  }

  predicate Enabled(s: Sys, st: Step) {
    match st
    case Fanned(k, ev) =>
      && k in s.links && s.links[k].source == Running
      && ev.seqNo == s.links[k].next && ev.seqNo < SYNTHETIC
      && (Accountable(ev) ==> InstrumentOf(ev) == k.instrument)
      && F.Offer(s.links[k].ref, ev).Keep?
    case SourceExited(k) => k in s.links && s.links[k].source == Running
    case Routed(k) => s.work == [] && k in s.links && Readable(s.links[k])
    case Delivered => s.work != []
    case ConsumerGone => s.open
    case Taken(gaps) =>
      && s.work == [] && !(s.mux.sink.Attached? && s.open)
      && (if s.mux.sink.Attached? then gaps == [] else FlushOrder(s.mux.sink.ring.dropped, gaps))
    case Subscribed(k, _, next, replay) =>
      && s.work == [] && k !in s.links
      && (replay.Some? ==> F.IsActivation(replay.value) && replay.value.seqNo < next)
    case Unsubscribed(k, _) => s.work == [] && k in s.links
    case SubstreamEnded(k, _) =>
      s.work == [] && k in s.links && s.links[k].source.Exited? && !Readable(s.links[k])
    case Closing(_) => s.work == []
  }

  predicate Readable(l: Link) {
    l.ref.tx.taken < |l.ref.tx.accepted|
  }

  function Apply(s: Sys, st: Step): Sys
    requires Enabled(s, st)
  {
    match st
    case Fanned(k, ev) =>
      var l := s.links[k];
      s.(links := s.links[k := l.(ref := F.Offer(l.ref, ev).referrer, fanned := l.fanned + [ev], next := l.next + 1)])
    case SourceExited(k) =>
      s.(links := s.links[k := s.links[k].(source := Exited)])
    case Routed(k) =>
      var l := s.links[k];
      var ev := l.ref.tx.accepted[l.ref.tx.taken];
      var v := Admit(s.mux.seen, ev);
      s.(links := s.links[k := l.(ref := l.ref.(tx := F.Drained(l.ref.tx)))],
         mux := s.mux.(seen := v.seen),
         work := if v.forward then [Item(ev, l.provider)] else [],
         inputs := s.inputs + if v.forward then 1 else 0)
    case Delivered =>
      s.(mux := Deliver(s.mux, s.work[0], s.open), work := s.work[1..])
    case ConsumerGone => s.(open := false)
    case Taken(gaps) =>
      s.(mux := s.mux.(sink := Attached, occupancy := 0),
         open := true,
         work := GapItems(gaps) + (if s.mux.sink.Attached? then [] else s.mux.sink.ring.buf),
         synthesised := s.synthesised + |gaps|)
    case Subscribed(k, provider, next, replay) =>
      var ch := F.Joined(F.Channel(s.channelCapacity, [], 0, false), replay);
      s.(links := s.links[k := Link(F.Referrer(ch, None), [], next, Running, provider)], subs := s.subs + [k])
    case Unsubscribed(k, at) =>
      s.(links := s.links - {k}, work := [EndOfSubscription(k, s.links[k].provider, at)], inputs := s.inputs + 1)
    case SubstreamEnded(k, at) =>
      s.(links := s.links - {k}, work := [EndOfSubscription(k, s.links[k].provider, at)], inputs := s.inputs + 1)
    case Closing(at) =>
      s.(work := [Item(Control(at, at, SYNTHETIC, SessionClosing), "")], inputs := s.inputs + 1)
  }

  predicate Runs(s: Sys, steps: seq<Step>, t: Sys)
    decreases |steps|
  {
    if steps == [] then s == t
    else Enabled(s, steps[0]) && Runs(Apply(s, steps[0]), steps[1..], t)
  }

  // ----------------------------------------------------- well-formed channels

  predicate LinkOk(k: Key, l: Link) {
    && l.ref.tx.Valid() && !l.ref.tx.closed
    && F.PendingFor(l.ref, k.instrument)
    && (forall e | e in l.ref.tx.accepted && Accountable(e) :: InstrumentOf(e) == k.instrument)
  }

  predicate WellFormed(s: Sys) {
    forall k | k in s.links :: LinkOk(k, s.links[k]) && k in s.subs
  }

  lemma OfferKeepsLink(k: Key, l: Link, ev: MarketEvent)
    requires LinkOk(k, l) && (Accountable(ev) ==> InstrumentOf(ev) == k.instrument)
    ensures F.Offer(l.ref, ev).Keep?
    ensures LinkOk(k, l.(ref := F.Offer(l.ref, ev).referrer))
  {
    F.OfferAccountsForAll(l.ref, ev, k.instrument);
  }

  lemma StepKeepsWellFormed(s: Sys, st: Step)
    requires WellFormed(s) && Enabled(s, st)
    ensures WellFormed(Apply(s, st))
  {
    if st.Fanned? {
      OfferKeepsLink(st.key, s.links[st.key], st.ev);
    }
  }

  // ----------------------------------------------------------- no silent loss

  ghost predicate RingTells(r: Ring, x: MarketEvent) {
    || x in EventsOf(r.buf)
    || exists i :: i in r.dropped && DropEvent(r.dropped, i) == x
  }

  function DropEvent(dropped: DropMap, i: Instrument): MarketEvent
    requires i in dropped
  {
    GapEvent(dropped[i].firstSeq, i, dropped[i].span, dropped[i].provider)
  }

  predicate LinkTells(l: Link, x: MarketEvent)
    requires l.ref.tx.Valid()
  {
    || x in l.ref.tx.Queue()
    || (l.source.Running? && l.ref.pending.Some? && l.ref.pending.value.ToEvent() == x)
  }

  /** `x` has been handed over, is being delivered, is buffered, or is recorded
      as loss, on subscription `k`'s way to the consumer. */
  ghost predicate Evident(s: Sys, k: Key, x: MarketEvent)
    requires WellFormed(s)
  {
    || x in s.mux.handed
    || x in EventsOf(s.work)
    || (s.mux.sink.Detached? && RingTells(s.mux.sink.ring, x))
    || (k in s.links && LinkTells(s.links[k], x))
  }

  ghost predicate AccountedFor(s: Sys, k: Key, e: MarketEvent)
    requires WellFormed(s)
  {
    exists x :: Evident(s, k, x) && Accounts(x, e)
  }

  /** The fan-out owed this referrer a gap over `e` when the source exited. */
  predicate Abandoned(l: Link, e: MarketEvent) {
    l.source.Exited? && l.ref.pending.Some? && Accounts(l.ref.pending.value.ToEvent(), e)
  }

  ghost predicate NoSilentLoss(s: Sys)
    requires WellFormed(s)
  {
    forall k, e | k in s.links && e in s.links[k].fanned && Accountable(e) ::
      AccountedFor(s, k, e) || Abandoned(s.links[k], e)
  }

  lemma NoteDropKeepsEvidence(dropped: DropMap, it: Item, i: Instrument)
    ensures i in dropped ==>
      i in NoteDrop(dropped, it) && Accounts(DropEvent(NoteDrop(dropped, it), i), DropEvent(dropped, i))
    ensures Accountable(it.ev) ==> (
      var i' := InstrumentOf(it.ev);
      i' in NoteDrop(dropped, it) && Accounts(DropEvent(NoteDrop(dropped, it), i'), it.ev))
  {
  }

  lemma PushKeepsEvidence(r: Ring, it: Item, x: MarketEvent)
    requires RingTells(r, x) && Accountable(x)
    ensures exists y :: RingTells(Push(r, it), y) && Accounts(y, x)
  {
    var r' := Push(r, it);
    if x in EventsOf(r.buf) {
      var n :| 0 <= n < |r.buf| && r.buf[n].ev == x;
      if Overflows(r) && n == 0 {
        var i := InstrumentOf(x);
        NoteDropKeepsEvidence(r.dropped, r.buf[0], i);
        assert RingTells(r', DropEvent(r'.dropped, i));
      } else {
        var n' := if Overflows(r) then n - 1 else n;
        assert r'.buf[n'] == r.buf[n] && EventsOf(r'.buf)[n'] == x;
        assert RingTells(r', x);
      }
    } else {
      var i :| i in r.dropped && DropEvent(r.dropped, i) == x;
      if Overflows(r) {
        NoteDropKeepsEvidence(r.dropped, r.buf[0], i);
      }
      assert RingTells(r', DropEvent(r'.dropped, i));
    }
  }

  ghost predicate MuxTells(m: Mux, x: MarketEvent) {
    x in m.handed || (m.sink.Detached? && RingTells(m.sink.ring, x))
  }

  lemma DeliverKeepsEvidence(m: Mux, it: Item, accepts: bool, x: MarketEvent)
    requires Accountable(x) && (MuxTells(m, x) || x == it.ev)
    ensures exists y :: MuxTells(Deliver(m, it, accepts), y) && Accounts(y, x)
  {
    var m' := Deliver(m, it, accepts);
    if m.sink.Attached? && accepts {
      assert MuxTells(m', x);
    } else {
      var r, r' := RingOf(m), m'.sink.ring;
      assert EventsOf(r'.buf)[|r'.buf| - 1] == it.ev;
      if x == it.ev || x in m.handed {
        assert MuxTells(m', x);
      } else {
        PushKeepsEvidence(r, it, x);
        var y :| RingTells(r', y) && Accounts(y, x);
        assert MuxTells(m', y);
      }
    }
  }

  lemma FlushKeepsEvidence(r: Ring, gaps: seq<InstrumentGap>, x: MarketEvent)
    requires FlushOrder(r.dropped, gaps) && RingTells(r, x)
    ensures x in EventsOf(GapItems(gaps) + r.buf)
  {
    EventsOfConcat(GapItems(gaps), r.buf);
    if x !in EventsOf(r.buf) {
      var i :| i in r.dropped && DropEvent(r.dropped, i) == x;
      assert i in InstrumentsIn(gaps);
      var n :| 0 <= n < |gaps| && gaps[n].instrument == i;
      assert Reports(gaps[n], r.dropped);
      assert EventsOf(GapItems(gaps))[n] == x;
    }
  }

  lemma FannedKeepsEvidence(s: Sys, k: Key, ev: MarketEvent, x: MarketEvent)
    requires WellFormed(s) && Enabled(s, Fanned(k, ev))
    requires WellFormed(Apply(s, Fanned(k, ev)))
    requires Accountable(x) && (LinkTells(s.links[k], x) || x == ev)
    ensures AccountedFor(Apply(s, Fanned(k, ev)), k, x)
  {
    var s' := Apply(s, Fanned(k, ev));
    var l, l' := s.links[k], s'.links[k];
    F.OfferAccountsForAll(l.ref, ev, k.instrument);
    assert l'.ref.tx.Queue() == l.ref.tx.Queue() + F.Added(l.ref, ev);
    if x in l.ref.tx.Queue() {
      assert Evident(s', k, x);
    } else {
      var y :| F.Gains(l.ref, ev, y) && Accounts(y, x);
      assert Evident(s', k, y);
    }
  }

  lemma DeliveredKeepsEvidence(s: Sys, k: Key, x: MarketEvent)
    requires WellFormed(s) && Enabled(s, Delivered) && WellFormed(Apply(s, Delivered))
    requires Evident(s, k, x) && Accountable(x)
    ensures AccountedFor(Apply(s, Delivered), k, x)
  {
    var s' := Apply(s, Delivered);
    EventsOfHead(s.work);
    if MuxTells(s.mux, x) || x == s.work[0].ev {
      DeliverKeepsEvidence(s.mux, s.work[0], s.open, x);
      var y :| MuxTells(s'.mux, y) && Accounts(y, x);
      assert Evident(s', k, y);
    } else {
      assert Evident(s', k, x);
    }
  }

  lemma RoutedKeepsEvidence(s: Sys, k: Key, k': Key, x: MarketEvent)
    requires WellFormed(s) && Enabled(s, Routed(k')) && WellFormed(Apply(s, Routed(k')))
    requires Evident(s, k, x) && Accountable(x)
    ensures AccountedFor(Apply(s, Routed(k')), k, x)
  {
    var s' := Apply(s, Routed(k'));
    var l := s.links[k'];
    var head := l.ref.tx.accepted[l.ref.tx.taken];
    assert l.ref.tx.Queue() == [head] + s'.links[k'].ref.tx.Queue();
    if x == head {
      assert EventsOf(s'.work)[0] == x;
    }
    assert Evident(s', k, x);
  }

  lemma TakenKeepsEvidence(s: Sys, k: Key, gaps: seq<InstrumentGap>, x: MarketEvent)
    requires WellFormed(s) && Enabled(s, Taken(gaps)) && WellFormed(Apply(s, Taken(gaps)))
    requires Evident(s, k, x)
    ensures AccountedFor(Apply(s, Taken(gaps)), k, x)
  {
    if s.mux.sink.Detached? && RingTells(s.mux.sink.ring, x) {
      FlushKeepsEvidence(s.mux.sink.ring, gaps, x);
    }
    assert Evident(Apply(s, Taken(gaps)), k, x);
  }

  lemma StepKeepsEvidence(s: Sys, st: Step, k: Key, x: MarketEvent)
    requires WellFormed(s) && Enabled(s, st) && WellFormed(Apply(s, st))
    requires k in s.links && k in Apply(s, st).links && st != SourceExited(k)
    requires Evident(s, k, x) && Accountable(x)
    ensures AccountedFor(Apply(s, st), k, x)
  {
    match st
    case Delivered => DeliveredKeepsEvidence(s, k, x);
    case Taken(gaps) => TakenKeepsEvidence(s, k, gaps, x);
    case Routed(k') => RoutedKeepsEvidence(s, k, k', x);
    case Fanned(k', ev) =>
      if k' == k && LinkTells(s.links[k], x) {
        FannedKeepsEvidence(s, k, ev, x);
      } else {
        assert Evident(Apply(s, st), k, x);
      }
    case _ =>
      assert Evident(Apply(s, st), k, x);
  }

  /** An exit abandons at most what the owed gap accounted for. */
  lemma ExitKeepsEvidence(s: Sys, k: Key, x: MarketEvent, e: MarketEvent)
    requires WellFormed(s) && Enabled(s, SourceExited(k)) && WellFormed(Apply(s, SourceExited(k)))
    requires Evident(s, k, x) && Accounts(x, e)
    ensures var s' := Apply(s, SourceExited(k)); AccountedFor(s', k, e) || Abandoned(s'.links[k], e)
  {
    var s' := Apply(s, SourceExited(k));
    if Evident(s', k, x) {
      assert AccountedFor(s', k, e);
    }
  }

  /** An event accounted for before a step is accounted for or abandoned after. */
  lemma StepKeepsAccount(s: Sys, st: Step, k: Key, e: MarketEvent)
    requires WellFormed(s) && Enabled(s, st) && WellFormed(Apply(s, st))
    requires k in s.links && k in Apply(s, st).links && Accountable(e) && AccountedFor(s, k, e)
    ensures AccountedFor(Apply(s, st), k, e) || Abandoned(Apply(s, st).links[k], e)
  {
    var s' := Apply(s, st);
    var x :| Evident(s, k, x) && Accounts(x, e);
    if st == SourceExited(k) {
      ExitKeepsEvidence(s, k, x, e);
    } else {
      StepKeepsEvidence(s, st, k, x);
      var y :| Evident(s', k, y) && Accounts(y, x);
      AccountsTransitive(y, x, e);
    }
  }

  lemma AbandonedStays(s: Sys, st: Step, k: Key, e: MarketEvent)
    requires Enabled(s, st) && k in s.links && k in Apply(s, st).links && Abandoned(s.links[k], e)
    ensures Abandoned(Apply(s, st).links[k], e)
  {
  }

  lemma StepKeepsNoSilentLoss(s: Sys, st: Step)
    requires WellFormed(s) && NoSilentLoss(s) && Enabled(s, st)
    ensures WellFormed(Apply(s, st)) && NoSilentLoss(Apply(s, st))
  {
    StepKeepsWellFormed(s, st);
    var s' := Apply(s, st);
    forall k, e | k in s'.links && e in s'.links[k].fanned && Accountable(e)
      ensures AccountedFor(s', k, e) || Abandoned(s'.links[k], e)
    {
      if st.Fanned? && st.key == k && e == st.ev {
        FannedKeepsEvidence(s, k, st.ev, e);
      } else {
        FannedBefore(s, st, k, e);
        if AccountedFor(s, k, e) {
          StepKeepsAccount(s, st, k, e);
        } else {
          AbandonedStays(s, st, k, e);
        }
      }
    }
  }

  lemma FannedBefore(s: Sys, st: Step, k: Key, e: MarketEvent)
    requires Enabled(s, st) && k in Apply(s, st).links && e in Apply(s, st).links[k].fanned
    requires !(st.Fanned? && st.key == k && e == st.ev)
    ensures k in s.links && e in s.links[k].fanned
  {
  }

  lemma {:induction false} RunKeepsNoSilentLoss(s: Sys, steps: seq<Step>, t: Sys)
    requires WellFormed(s) && NoSilentLoss(s) && Runs(s, steps, t)
    ensures WellFormed(t) && NoSilentLoss(t)
    decreases |steps|
  {
    if steps != [] {
      StepKeepsNoSilentLoss(s, steps[0]);
      RunKeepsNoSilentLoss(Apply(s, steps[0]), steps[1..], t);
    }
  }

  /** In every reachable state, every data event below the last representable
      instant that was fanned out to a still-held subscription since it joined
      is handed over, in delivery, buffered or queued; or its timestamp lies
      inside the span of a gap of its instrument that is handed over, in
      delivery, buffered, queued, or still owed by the ring or a running
      fan-out; or the source has exited owing a gap, and it lies in that one. */
  lemma NoDataIsLostSilently(ringCapacity: nat, channelCapacity: nat, steps: seq<Step>, t: Sys, k: Key, e: MarketEvent)
    requires Runs(Init(ringCapacity, channelCapacity), steps, t)
    requires k in t.links && e in t.links[k].fanned && IsData(e) && e.sourceTs < I64_MAX
    ensures WellFormed(t)
    ensures
      || Evident(t, k, e)
      || (exists g :: Evident(t, k, g) && IsGap(g) && InstrumentOf(g) == e.instrument && InSpan(e.sourceTs, g.control.span))
      || (t.links[k].source.Exited? && t.links[k].ref.pending.Some? && InSpan(e.sourceTs, t.links[k].ref.pending.value.span))
  {
    RunKeepsNoSilentLoss(Init(ringCapacity, channelCapacity), steps, t);
    if AccountedFor(t, k, e) {
      var x :| Evident(t, k, x) && Accounts(x, e);
      if x != e {
        GapAccountsIffInSpan(x, e);
      }
    } else {
      GapAccountsIffInSpan(t.links[k].ref.pending.value.ToEvent(), e);
    }
  }

  // ------------------------------------------------ what a consumer is handed

  /** What a step sends into delivery: the head of a channel, unless the
      coalescer stops it, or a control of the client's own making. */
  function EntersBy(s: Sys, st: Step): seq<Item>
    requires Enabled(s, st)
  {
    match st
    case Routed(k) =>
      var tx, p := s.links[k].ref.tx, s.links[k].provider;
      if Admit(s.mux.seen, tx.accepted[tx.taken]).forward then [Item(tx.accepted[tx.taken], p)] else []
    case Unsubscribed(k, at) =>
      var p := s.links[k].provider;
      [Item(Control(at, at, SYNTHETIC, SubscriptionChanged(p, k.instrument, k.kind, false)), p)]
    case SubstreamEnded(k, at) =>
      var p := s.links[k].provider;
      [Item(Control(at, at, SYNTHETIC, SubscriptionChanged(p, k.instrument, k.kind, false)), p)]
    case Closing(at) => [Item(Control(at, at, SYNTHETIC, SessionClosing), "")]
    case _ => []
  }

  function Entered(s: Sys, steps: seq<Step>, t: Sys): seq<Item>
    requires Runs(s, steps, t)
    decreases |steps|
  {
    if steps == [] then [] else EntersBy(s, steps[0]) + Entered(Apply(s, steps[0]), steps[1..], t)
  }

  lemma EntersTheWork(s: Sys, st: Step)
    requires Enabled(s, st) && !st.Delivered? && !st.Taken?
    ensures Apply(s, st).work == s.work + EntersBy(s, st)
    ensures Apply(s, st).mux == s.mux.(seen := Apply(s, st).mux.seen)
    ensures Apply(s, st).inputs == s.inputs + |EntersBy(s, st)|
  {
  }

  /** While its consumer stays, a client hands it everything that enters delivery
      and was already in delivery, in order, controls included, and buffers
      nothing. */
  lemma {:induction false} AttachedConsumerIsHandedEverything(s: Sys, steps: seq<Step>, t: Sys)
    requires Runs(s, steps, t) && s.mux.sink.Attached? && s.open && ConsumerGone !in steps
    ensures t.mux.sink.Attached? && t.open && t.mux.droppedEvents == s.mux.droppedEvents
    ensures t.mux.occupancy == s.mux.occupancy
    ensures t.mux.handed + EventsOf(t.work) == s.mux.handed + EventsOf(s.work + Entered(s, steps, t))
    ensures t.inputs == s.inputs + |Entered(s, steps, t)|
    decreases |steps|
  {
    if steps == [] {
      assert s.work + [] == s.work;
    } else {
      var s', rest := Apply(s, steps[0]), Entered(Apply(s, steps[0]), steps[1..], t);
      AttachedConsumerIsHandedEverything(s', steps[1..], t);
      if steps[0].Delivered? {
        HandedHead(s.mux.handed, s.work, rest);
        assert [] + rest == rest;
      } else {
        EntersTheWork(s, steps[0]);
        ConcatAssoc(s.work, EntersBy(s, steps[0]), rest);
      }
    }
  }

  /** A new consumer that stays is handed the gaps of the flush, the survivors of
      the ring, and everything that enters delivery from then on. */
  lemma NewConsumerIsHandedTheRingFirst(s: Sys, gaps: seq<InstrumentGap>, steps: seq<Step>, t: Sys)
    requires Enabled(s, Taken(gaps)) && s.mux.sink.Detached?
    requires Runs(Apply(s, Taken(gaps)), steps, t) && ConsumerGone !in steps
    ensures t.mux.sink.Attached? && t.mux.occupancy == 0
    ensures t.mux.handed + EventsOf(t.work) ==
      s.mux.handed + EventsOf(GapItems(gaps) + s.mux.sink.ring.buf + Entered(Apply(s, Taken(gaps)), steps, t))
  {
    AttachedConsumerIsHandedEverything(Apply(s, Taken(gaps)), steps, t);
  }

  lemma HandedHead(handed: seq<MarketEvent>, work: seq<Item>, rest: seq<Item>)
    requires work != []
    ensures (handed + [work[0].ev]) + EventsOf(work[1..] + rest) == handed + EventsOf(work + rest)
  {
    assert EventsOf(work + rest) == [work[0].ev] + EventsOf(work[1..] + rest);
  }

  /** One step of a detached client, with `rest` still to come. */
  lemma DetachedStep(s: Sys, st: Step, rest: seq<Item>)
    requires Enabled(s, st) && s.mux.sink.Detached? && !st.Taken?
    ensures var s' := Apply(s, st);
      && s'.mux.sink.Detached? && s'.mux.handed == s.mux.handed
      && PushAll(s'.mux.sink.ring, s'.work + rest) == PushAll(s.mux.sink.ring, s.work + (EntersBy(s, st) + rest))
  {
    if st.Delivered? {
      PushAllCons(s.mux.sink.ring, s.work + rest);
      assert (s.work + rest)[1..] == s.work[1..] + rest;
      assert [] + rest == rest;
    } else {
      EntersTheWork(s, st);
      ConcatAssoc(s.work, EntersBy(s, st), rest);
    }
  }

  /** Without a consumer, a client hands over nothing: what enters delivery, and
      what was already in delivery, goes into the ring, in order. */
  lemma {:induction false} DetachedClientBuffersEverything(s: Sys, steps: seq<Step>, t: Sys)
    requires Runs(s, steps, t) && s.mux.sink.Detached? && forall n | 0 <= n < |steps| :: !steps[n].Taken?
    ensures t.mux.sink.Detached? && t.mux.handed == s.mux.handed
    ensures PushAll(t.mux.sink.ring, t.work) == PushAll(s.mux.sink.ring, s.work + Entered(s, steps, t))
    decreases |steps|
  {
    if steps == [] {
      assert s.work + [] == s.work;
    } else {
      var s' := Apply(s, steps[0]);
      DetachedStep(s, steps[0], Entered(s', steps[1..], t));
      DetachedClientBuffersEverything(s', steps[1..], t);
    }
  }

  /** A subscription that is over is over: until it is made again, nothing of it is
      fanned out or routed, whatever was still in its channel. */
  lemma {:induction false} EndedSubscriptionIsSilent(s: Sys, steps: seq<Step>, t: Sys, k: Key)
    requires Runs(s, steps, t) && k !in s.links
    requires forall n | 0 <= n < |steps| :: !(steps[n].Subscribed? && steps[n].key == k)
    ensures k !in t.links
    ensures forall n | 0 <= n < |steps| :: !((steps[n].Fanned? || steps[n].Routed?) && steps[n].key == k)
    decreases |steps|
  {
    if steps != [] {
      assert !(steps[0].Subscribed? && steps[0].key == k);
      EndedSubscriptionIsSilent(Apply(s, steps[0]), steps[1..], t, k);
    }
  }

  /** Both ways to end one. */
  lemma UnsubscribingEndsIt(s: Sys, st: Step)
    requires Enabled(s, st) && (st.Unsubscribed? || st.SubstreamEnded?)
    ensures Apply(s, st).links == s.links - {st.key}
  {
  }

  /** The heads taken from the substreams' channels, merged in the order taken. */
  function Merged(s: Sys, steps: seq<Step>, t: Sys): seq<MarketEvent>
    requires Runs(s, steps, t)
    decreases |steps|
  {
    if steps == [] then []
    else
      var rest := Merged(Apply(s, steps[0]), steps[1..], t);
      if steps[0].Routed? then
        var tx := s.links[steps[0].key].ref.tx;
        [tx.accepted[tx.taken]] + rest
      else rest
  }

  predicate OwnControls(steps: seq<Step>) {
    exists st :: st in steps && (st.Unsubscribed? || st.SubstreamEnded? || st.Closing?)
  }

  /** Over any interleaving of substreams, what enters delivery is what the
      coalescer forwards of their merged events. */
  lemma {:induction false} CoalescerSeesTheMergedSubstreams(s: Sys, steps: seq<Step>, t: Sys)
    requires Runs(s, steps, t) && !OwnControls(steps)
    ensures EventsOf(Entered(s, steps, t)) == Forwarded(s.mux.seen, Merged(s, steps, t))
    decreases |steps|
  {
    if steps != [] {
      var st, s' := steps[0], Apply(s, steps[0]);
      assert forall x | x in steps[1..] :: x in steps;
      assert st in steps;
      CoalescerSeesTheMergedSubstreams(s', steps[1..], t);
      EventsOfConcat(EntersBy(s, st), Entered(s', steps[1..], t));
      if st.Routed? {
        var merged := Merged(s, steps, t);
        assert merged[1..] == Merged(s', steps[1..], t);
        assert EventsOf(EntersBy(s, st)) == if Admit(s.mux.seen, merged[0]).forward then [merged[0]] else [];
      } else {
        assert EventsOf(EntersBy(s, st)) == [];
        assert s'.mux.seen == s.mux.seen;
      }
    }
  }

  // --------------------------------------------------- the one way to lose it

  /** Reports still travelling towards the consumer on `k`, oldest first, by
      `seq`: handed over, ring, in delivery, channel, fan-out. */
  function Line(s: Sys, k: Key): seq<int>
    requires WellFormed(s)
  {
    MuxSeqs(s.mux, k.instrument) + SeqsOf(k.instrument, EventsOf(s.work)) + LinkSeqs(s, k)
  }

  function MuxSeqs(m: Mux, i: Instrument): seq<int> {
    SeqsOf(i, m.handed) + RingSeqs(m.sink, i)
  }

  function RingSeqs(sink: Sink, i: Instrument): seq<int> {
    if sink.Attached? then [] else DropSeqs(sink.ring.dropped, i) + SeqsOf(i, EventsOf(sink.ring.buf))
  }

  function DropSeqs(dropped: DropMap, i: Instrument): seq<int> {
    if i in dropped then [dropped[i].firstSeq as int] else []
  }

  function PendingSeqs(l: Link): seq<int> {
    if l.source.Running? && l.ref.pending.Some? then [l.ref.pending.value.firstSeq as int] else []
  }

  function LinkSeqs(s: Sys, k: Key): seq<int>
    requires WellFormed(s)
  {
    if k in s.links then SeqsOf(k.instrument, s.links[k].ref.tx.Queue()) + PendingSeqs(s.links[k]) else []
  }

  const SampleKey: Key := Key(Instrument("p", Equity, "X"), Trades)

  function Sample(seqNo: Seq): MarketEvent {
    Trade(SampleKey.instrument, 10 + seqNo % 10, 0, seqNo, 1, 1)
  }

  function SampleRun(): seq<Step> {
    [Subscribed(SampleKey, "p", 0, None), Fanned(SampleKey, Sample(0)), Fanned(SampleKey, Sample(1)), SourceExited(SampleKey)]
  }

  function SampleEnd(): Sys {
    var gap := F.PendingGap(SampleKey.instrument, "p", 1, GapSpan(11, 12));
    var link := Link(F.Referrer(F.Channel(1, [Sample(0)], 0, false), Some(gap)),
                     [Sample(0), Sample(1)], 2, Exited, "p");
    Init(4, 1).(links := map[SampleKey := link], subs := [SampleKey])
  }

  lemma SampleRuns()
    ensures Runs(Init(4, 1), SampleRun(), SampleEnd())
  {
    var steps := SampleRun();
    var s1 := Apply(Init(4, 1), steps[0]);
    var s2 := Apply(s1, steps[1]);
    var s3 := Apply(s2, steps[2]);
    assert s3.links[SampleKey].ref.tx.accepted == [Sample(0)];
    assert s3.links[SampleKey].fanned == [Sample(0), Sample(1)];
    assert Apply(s3, steps[3]) == SampleEnd();
    assert Runs(s3, steps[3..], SampleEnd());
    assert steps[2..][1..] == steps[3..];
    assert Runs(s2, steps[2..], SampleEnd());
    assert steps[1..][1..] == steps[2..];
    assert Runs(s1, steps[1..], SampleEnd());
  }

  lemma SampleEvidence(s: Sys, x: MarketEvent)
    requires s == SampleEnd() && WellFormed(s) && Evident(s, SampleKey, x)
    ensures x == Sample(0)
  {
    assert s.links[SampleKey].ref.tx.Queue() == [Sample(0)];
  }

  /** The exit does lose data silently: two trades into a one-slot channel that
      nobody drains, then the source goes. The second trade is reported
      nowhere, while the client still holds the subscription. */
  lemma SourceExitCanLoseSilently()
    ensures Runs(Init(4, 1), SampleRun(), SampleEnd()) && WellFormed(SampleEnd())
    ensures SampleKey in SampleEnd().links && Sample(1) in SampleEnd().links[SampleKey].fanned
    ensures !AccountedFor(SampleEnd(), SampleKey, Sample(1))
  {
    SampleRuns();
    RunKeepsNoSilentLoss(Init(4, 1), SampleRun(), SampleEnd());
    assert SampleEnd().links[SampleKey].fanned[1] == Sample(1);
    forall x | Evident(SampleEnd(), SampleKey, x)
      ensures !Accounts(x, Sample(1))
    {
      SampleEvidence(SampleEnd(), x);
    }
  }
}
