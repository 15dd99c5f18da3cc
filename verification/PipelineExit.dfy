/** What a source exit costs, exactly: over a source whose data timestamps
    strictly increase, the events of the gap still owed at the exit are reported
    nowhere, ever, and all others are accounted for. */
module PipelineExit {
  import opened Events
  import opened ClientRings
  import opened ClientControllers
  import opened Pipeline
  import opened PipelineOrder
  import F = FanOuts

  // ------------------------------------------------- how far reports can reach

  /** Nothing reported of instrument `i` reaches past `b`. */
  predicate Capped(x: MarketEvent, i: Instrument, b: int) {
    Accountable(x) && InstrumentOf(x) == i ==> SpanOf(x).toTs <= b
  }

  predicate AllCapped(evs: seq<MarketEvent>, i: Instrument, b: int) {
    forall n | 0 <= n < |evs| :: Capped(evs[n], i, b)
  }

  predicate ItemsCapped(items: seq<Item>, i: Instrument, b: int) {
    forall n | 0 <= n < |items| :: Capped(items[n].ev, i, b)
  }

  predicate RingCapped(r: Ring, i: Instrument, b: int) {
    ItemsCapped(r.buf, i, b) && (i in r.dropped ==> r.dropped[i].span.toTs <= b)
  }

  predicate MuxCapped(m: Mux, i: Instrument, b: int) {
    AllCapped(m.handed, i, b) && (m.sink.Detached? ==> RingCapped(m.sink.ring, i, b))
  }

  /** Everything on the way to the consumer but the gap still owed. */
  predicate SysCapped(s: Sys, k: Key, b: int)
    requires WellFormed(s)
  {
    && MuxCapped(s.mux, k.instrument, b) && ItemsCapped(s.work, k.instrument, b)
    && (k in s.links ==> AllCapped(s.links[k].ref.tx.Queue(), k.instrument, b))
  }

  /** No timestamp is below this, so nothing capped by it is reported at all. */
  const NOTHING: int := I64_MIN - 1

  lemma PushKeepsCapped(r: Ring, it: Item, i: Instrument, b: int)
    requires RingCapped(r, i, b) && Capped(it.ev, i, b)
    ensures RingCapped(Push(r, it), i, b)
  {
  }

  lemma DeliverKeepsCapped(m: Mux, it: Item, accepts: bool, i: Instrument, b: int)
    requires MuxCapped(m, i, b) && Capped(it.ev, i, b)
    ensures MuxCapped(Deliver(m, it, accepts), i, b)
  {
    if !(m.sink.Attached? && accepts) {
      PushKeepsCapped(RingOf(m), it, i, b);
    }
  }

  lemma FlushKeepsCapped(r: Ring, gaps: seq<InstrumentGap>, i: Instrument, b: int)
    requires RingCapped(r, i, b) && FlushOrder(r.dropped, gaps)
    ensures ItemsCapped(GapItems(gaps) + r.buf, i, b)
  {
    forall n | 0 <= n < |gaps|
      ensures Capped(GapItems(gaps)[n].ev, i, b)
    {
      assert Reports(gaps[n], r.dropped);
    }
  }

  // ----------------------------------------------------------- a steady source

  /** A source one can check: no gaps of its own, timestamps strictly increase
      and stay below the last representable instant. */
  predicate Steady(fanned: seq<MarketEvent>) {
    && (forall n | 0 <= n < |fanned| && Accountable(fanned[n]) :: IsData(fanned[n]) && fanned[n].sourceTs < I64_MAX)
    && (forall m, n | 0 <= m < n < |fanned| && IsData(fanned[m]) && IsData(fanned[n]) ::
          fanned[m].sourceTs < fanned[n].sourceTs)
  }

  /** Where the spans of the events fanned out so far end. */
  function Reach(fanned: seq<MarketEvent>): int {
    if fanned == [] then I64_MIN
    else if IsData(fanned[|fanned| - 1]) then fanned[|fanned| - 1].sourceTs + 1
    else Reach(fanned[..|fanned| - 1])
  }

  lemma SteadyPrefix(fanned: seq<MarketEvent>, ev: MarketEvent)
    requires Steady(fanned + [ev])
    ensures Steady(fanned)
  {
    assert forall n | 0 <= n < |fanned| :: (fanned + [ev])[n] == fanned[n];
  }

  lemma {:induction false} ReachIsBefore(fanned: seq<MarketEvent>, ts: Timestamp)
    requires forall n | 0 <= n < |fanned| && IsData(fanned[n]) :: fanned[n].sourceTs < ts
    ensures Reach(fanned) <= ts
  {
    if fanned != [] && !IsData(fanned[|fanned| - 1]) {
      ReachIsBefore(fanned[..|fanned| - 1], ts);
    }
  }

  /** The next event lies beyond everything before it, and moves the reach. */
  lemma ReachGrows(fanned: seq<MarketEvent>, ev: MarketEvent)
    requires Steady(fanned + [ev])
    ensures Accountable(ev) ==> IsData(ev) && ev.sourceTs < I64_MAX
    ensures IsData(ev) ==> Reach(fanned) <= ev.sourceTs && Reach(fanned + [ev]) == ev.sourceTs + 1
    ensures !IsData(ev) ==> Reach(fanned + [ev]) == Reach(fanned)
  {
    var all := fanned + [ev];
    assert all[|fanned|] == ev && all[..|fanned|] == fanned;
    if IsData(ev) {
      forall n | 0 <= n < |fanned| && IsData(fanned[n])
        ensures fanned[n].sourceTs < ev.sourceTs
      {
        assert all[n] == fanned[n];
      }
      ReachIsBefore(fanned, ev.sourceTs);
    }
  }

  // ------------------------------------------------------------- the invariant

  /** What is already on its way ends where the owed gap starts. */
  function CapOf(pending: Option<F.PendingGap>, fanned: seq<MarketEvent>): int {
    if pending.Some? then pending.value.span.fromTs else Reach(fanned)
  }

  /** The owed gap stands for an event that was fanned out. */
  ghost predicate Owes(pending: Option<F.PendingGap>, fanned: seq<MarketEvent>) {
    pending.Some? ==>
      && pending.value.span.toTs <= Reach(fanned)
      && exists e :: e in fanned && IsData(e) && e.sourceTs < I64_MAX && Accounts(pending.value.ToEvent(), e)
  }

  function Cap(l: Link): int {
    CapOf(l.ref.pending, l.fanned)
  }

  ghost predicate OwesSomething(l: Link) {
    Owes(l.ref.pending, l.fanned)
  }

  ghost predicate CappedLink(s: Sys, k: Key)
    requires WellFormed(s) && k in s.links
  {
    SysCapped(s, k, Cap(s.links[k])) && OwesSomething(s.links[k])
  }

  ghost predicate ExitInv(s: Sys, k: Key)
    requires WellFormed(s)
  {
    && (Never(s.subs, k.instrument) ==> SysCapped(s, k, NOTHING))
    && (Sole(s.subs, k) && k in s.links && Steady(s.links[k].fanned) ==> CappedLink(s, k))
  }

  lemma AllCappedMore(evs: seq<MarketEvent>, i: Instrument, b: int, b': int)
    requires AllCapped(evs, i, b) && b <= b'
    ensures AllCapped(evs, i, b')
  {
  }

  lemma MuxCappedMore(s: Sys, i: Instrument, b: int, b': int)
    requires MuxCapped(s.mux, i, b) && ItemsCapped(s.work, i, b) && b <= b'
    ensures MuxCapped(s.mux, i, b') && ItemsCapped(s.work, i, b')
  {
  }

  /** An owed gap starts before it ends, and ends by the reach. */
  lemma OwedIsBehind(pending: Option<F.PendingGap>, fanned: seq<MarketEvent>)
    requires Owes(pending, fanned)
    ensures CapOf(pending, fanned) <= Reach(fanned)
  {
    if pending.Some? {
      var e :| e in fanned && IsData(e) && e.sourceTs < I64_MAX && Accounts(pending.value.ToEvent(), e);
    }
  }

  /** A refused event moves the cap only when it starts a gap. */
  lemma AbsorbKeepsOwed(pending: Option<F.PendingGap>, fanned: seq<MarketEvent>, ev: MarketEvent)
    requires Owes(pending, fanned) && Steady(fanned + [ev])
    requires pending.Some? && Accountable(ev) ==> InstrumentOf(ev) == pending.value.instrument
    ensures Owes(F.AbsorbDrop(pending, ev), fanned + [ev])
    ensures CapOf(pending, fanned) <= CapOf(F.AbsorbDrop(pending, ev), fanned + [ev])
  {
    ReachGrows(fanned, ev);
    OwedIsBehind(pending, fanned);
    var after := F.AbsorbDrop(pending, ev);
    assert (fanned + [ev])[|fanned|] == ev;
    if pending.Some? {
      var e :| e in fanned && IsData(e) && e.sourceTs < I64_MAX && Accounts(pending.value.ToEvent(), e);
      assert e in fanned + [ev] && Accounts(after.value.ToEvent(), e);
    } else if IsData(ev) {
      assert Accounts(after.value.ToEvent(), ev);
    }
  }

  /** What one fan-out does to a referrer: refuse everything, flush the owed
      gap, take the event, or both. */
  predicate Outcome(pending: Option<F.PendingGap>, ev: MarketEvent, pending': Option<F.PendingGap>, added: seq<MarketEvent>) {
    || (added == [] && pending' == F.AbsorbDrop(pending, ev))
    || (added == [ev] && pending.None? && pending'.None?)
    || (pending.Some? && added == [pending.value.ToEvent()] && pending' == F.AbsorbDrop(None, ev))
    || (pending.Some? && added == [pending.value.ToEvent(), ev] && pending'.None?)
  }

  lemma OfferHasOutcome(r: F.Referrer, ev: MarketEvent)
    requires F.Offer(r, ev).Keep?
    ensures Outcome(r.pending, ev, F.Offer(r, ev).referrer.pending, F.Added(r, ev))
  {
  }

  lemma EventIsCapped(fanned: seq<MarketEvent>, ev: MarketEvent, i: Instrument)
    requires Steady(fanned + [ev])
    ensures Capped(ev, i, Reach(fanned + [ev])) && Reach(fanned) <= Reach(fanned + [ev])
  {
    ReachGrows(fanned, ev);
  }

  /** What a fan-out queues ends by the new cap, and the cap never moves back. */
  lemma OutcomeKeepsCapped(
    pending: Option<F.PendingGap>, fanned: seq<MarketEvent>, ev: MarketEvent,
    pending': Option<F.PendingGap>, added: seq<MarketEvent>, i: Instrument)
    requires Outcome(pending, ev, pending', added) && Owes(pending, fanned) && Steady(fanned + [ev])
    requires pending.Some? ==> pending.value.instrument == i
    requires Accountable(ev) ==> InstrumentOf(ev) == i
    ensures var b, b' := CapOf(pending, fanned), CapOf(pending', fanned + [ev]);
      Owes(pending', fanned + [ev]) && b <= b' && AllCapped(added, i, b')
  {
    OwedIsBehind(pending, fanned);
    EventIsCapped(fanned, ev, i);
    if added == [] {
      AbsorbKeepsOwed(pending, fanned, ev);
    } else if pending'.Some? {
      AbsorbKeepsOwed(None, fanned, ev);
    }
  }

  lemma FannedKeepsCapped(s: Sys, k: Key, ev: MarketEvent)
    requires WellFormed(s) && Enabled(s, Fanned(k, ev)) && WellFormed(Apply(s, Fanned(k, ev)))
    requires Steady(s.links[k].fanned + [ev]) && CappedLink(s, k)
    ensures CappedLink(Apply(s, Fanned(k, ev)), k)
  {
    var s' := Apply(s, Fanned(k, ev));
    var l, l', i := s.links[k], s'.links[k], k.instrument;
    OfferHasOutcome(l.ref, ev);
    OutcomeKeepsCapped(l.ref.pending, l.fanned, ev, l'.ref.pending, F.Added(l.ref, ev), i);
    MuxCappedMore(s, i, Cap(l), Cap(l'));
    AllCappedMore(l.ref.tx.Queue(), i, Cap(l), Cap(l'));
    assert l'.ref.tx.Queue() == l.ref.tx.Queue() + F.Added(l.ref, ev);
  }

  /** A step that adds no report of this instrument keeps every cap. */
  lemma QuietKeepsCapped(s: Sys, st: Step, k: Key, b: int)
    requires WellFormed(s) && Enabled(s, st) && WellFormed(Apply(s, st)) && SysCapped(s, k, b)
    requires !(st.Fanned? && st.key == k) && !st.Subscribed?
    requires Never(s.subs, k.instrument) || Sole(s.subs, k)
    ensures SysCapped(Apply(s, st), k, b)
  {
    match st
    case Delivered => DeliverKeepsCapped(s.mux, s.work[0], s.open, k.instrument, b);
    case Taken(gaps) =>
      if s.mux.sink.Detached? {
        FlushKeepsCapped(s.mux.sink.ring, gaps, k.instrument, b);
      }
    case Routed(k') => RoutedKeepsCapped(s, k, k', b);
    case _ =>
  }

  lemma TakingKeepsCapped(ch: F.Channel, i: Instrument, b: int)
    requires ch.Valid() && ch.taken < |ch.accepted| && AllCapped(ch.Queue(), i, b)
    ensures Capped(ch.accepted[ch.taken], i, b) && F.Drained(ch).Valid() && AllCapped(F.Drained(ch).Queue(), i, b)
  {
    assert ch.Queue()[0] == ch.accepted[ch.taken];
    assert forall n | 0 <= n < |F.Drained(ch).Queue()| :: F.Drained(ch).Queue()[n] == ch.Queue()[n + 1];
  }

  lemma RoutedKeepsCapped(s: Sys, k: Key, k': Key, b: int)
    requires WellFormed(s) && Enabled(s, Routed(k')) && WellFormed(Apply(s, Routed(k'))) && SysCapped(s, k, b)
    requires Never(s.subs, k.instrument) || Sole(s.subs, k)
    ensures SysCapped(Apply(s, Routed(k')), k, b)
  {
    if k' == k {
      TakingKeepsCapped(s.links[k].ref.tx, k.instrument, b);
    } else {
      OthersAreElsewhere(s, k, k');
    }
  }

  /** A fresh link on an instrument never subscribed before. */
  lemma JoinedIsCapped(s: Sys, s': Sys, k: Key)
    requires WellFormed(s) && WellFormed(s') && s'.mux == s.mux && s'.work == s.work && SysCapped(s, k, NOTHING)
    requires k in s'.links && s'.links[k].fanned == [] && s'.links[k].ref.pending.None?
    requires forall e | e in s'.links[k].ref.tx.Queue() :: !Accountable(e)
    ensures CappedLink(s', k)
  {
    MuxCappedMore(s, k.instrument, NOTHING, I64_MIN);
  }

  lemma JoiningKeepsExit(s: Sys, s': Sys, key: Key, k: Key)
    requires WellFormed(s) && WellFormed(s') && Joining(s, s', key, k) && ExitInv(s, k)
    ensures ExitInv(s', k)
  {
    if Never(s'.subs, k.instrument) || Sole(s'.subs, k) {
      NeverOrSoleBefore(s.subs, k, key);
      if key == k {
        JoinedIsCapped(s, s', k);
      } else {
        ElsewhereKeepsExit(s, s', k);
      }
    }
  }

  lemma ElsewhereKeepsExit(s: Sys, s': Sys, k: Key)
    requires WellFormed(s) && WellFormed(s') && s'.mux == s.mux && s'.work == s.work && ExitInv(s, k)
    requires (k in s'.links <==> k in s.links) && (k in s.links ==> s'.links[k] == s.links[k])
    requires Never(s'.subs, k.instrument) ==> Never(s.subs, k.instrument)
    requires Sole(s'.subs, k) ==> Sole(s.subs, k)
    ensures ExitInv(s', k)
  {
  }

  /** Quiet steps leave what the link owes, and has been fanned, alone. */
  lemma QuietKeepsLink(s: Sys, st: Step, k: Key)
    requires Enabled(s, st) && !(st.Fanned? && st.key == k) && !st.Subscribed? && k in Apply(s, st).links
    ensures k in s.links && Apply(s, st).subs == s.subs
    ensures var l, l' := s.links[k], Apply(s, st).links[k]; l'.fanned == l.fanned && l'.ref.pending == l.ref.pending
  {
  }

  lemma QuietKeepsExit(s: Sys, st: Step, k: Key)
    requires WellFormed(s) && Enabled(s, st) && WellFormed(Apply(s, st)) && ExitInv(s, k)
    requires !(st.Fanned? && st.key == k) && !st.Subscribed?
    ensures ExitInv(Apply(s, st), k)
  {
    var s' := Apply(s, st);
    assert s'.subs == s.subs;
    if Never(s.subs, k.instrument) {
      QuietKeepsCapped(s, st, k, NOTHING);
    }
    if Sole(s.subs, k) && k in s'.links && Steady(s'.links[k].fanned) {
      QuietKeepsLink(s, st, k);
      QuietKeepsCapped(s, st, k, Cap(s.links[k]));
    }
  }

  lemma StepKeepsExit(s: Sys, st: Step, k: Key)
    requires WellFormed(s) && Enabled(s, st) && ExitInv(s, k)
    ensures WellFormed(Apply(s, st)) && ExitInv(Apply(s, st), k)
  {
    StepKeepsWellFormed(s, st);
    if st.Fanned? && st.key == k {
      assert k in s.subs && !Never(s.subs, k.instrument);
      if Sole(s.subs, k) && Steady(s.links[k].fanned + [st.ev]) {
        SteadyPrefix(s.links[k].fanned, st.ev);
        FannedKeepsCapped(s, k, st.ev);
      }
    } else if st.Subscribed? {
      SubscribedJoins(s, st, k);
      JoiningKeepsExit(s, Apply(s, st), st.key, k);
    } else {
      QuietKeepsExit(s, st, k);
    }
  }

  lemma {:induction false} RunKeepsExit(s: Sys, steps: seq<Step>, t: Sys, k: Key)
    requires WellFormed(s) && ExitInv(s, k) && Runs(s, steps, t)
    ensures WellFormed(t) && ExitInv(t, k)
    decreases |steps|
  {
    if steps != [] {
      StepKeepsExit(s, steps[0], k);
      RunKeepsExit(Apply(s, steps[0]), steps[1..], t, k);
    }
  }

  // ------------------------------------------------------------------- theorems

  lemma RingTellsCapped(r: Ring, x: MarketEvent, i: Instrument, b: int)
    requires RingCapped(r, i, b) && RingTells(r, x)
    ensures Capped(x, i, b)
  {
  }

  /** Whatever is evident once the source is gone ends by the cap. */
  lemma EvidentIsCapped(s: Sys, k: Key, x: MarketEvent, b: int)
    requires WellFormed(s) && k in s.links && s.links[k].source.Exited? && SysCapped(s, k, b) && Evident(s, k, x)
    ensures Capped(x, k.instrument, b)
  {
    if s.mux.sink.Detached? && RingTells(s.mux.sink.ring, x) {
      RingTellsCapped(s.mux.sink.ring, x, k.instrument, b);
    }
  }

  /** An event the owed gap stood for is reported nowhere. */
  lemma AbandonedIsUnreported(s: Sys, k: Key, e: MarketEvent)
    requires WellFormed(s) && k in s.links && CappedLink(s, k) && Abandoned(s.links[k], e)
    requires IsData(e) && e.sourceTs < I64_MAX
    ensures !AccountedFor(s, k, e)
  {
    var p := s.links[k].ref.pending.value;
    assert p.span.fromTs <= e.sourceTs;
    forall x | Evident(s, k, x)
      ensures !Accounts(x, e)
    {
      EvidentIsCapped(s, k, x, p.span.fromTs);
      assert e.instrument == p.instrument == k.instrument;
    }
  }

  lemma InitCapped(ringCapacity: nat, channelCapacity: nat, k: Key)
    ensures WellFormed(Init(ringCapacity, channelCapacity)) && ExitInv(Init(ringCapacity, channelCapacity), k)
  {
  }

  /** Once the source of a subscription has exited, in every reachable state and
      for every event it was fanned: the event is accounted for if and only if
      it is not inside the gap that was still owed at the exit. */
  lemma ExitLosesExactlyTheOwedSpan(
    ringCapacity: nat, channelCapacity: nat, steps: seq<Step>, t: Sys, k: Key, e: MarketEvent)
    requires Runs(Init(ringCapacity, channelCapacity), steps, t) && k in t.links && t.links[k].source.Exited?
    requires Sole(t.subs, k) && Steady(t.links[k].fanned) && e in t.links[k].fanned && IsData(e)
    ensures WellFormed(t)
    ensures AccountedFor(t, k, e)
      <==> !(t.links[k].ref.pending.Some? && InSpan(e.sourceTs, t.links[k].ref.pending.value.span))
  {
    var start := Init(ringCapacity, channelCapacity);
    InitCapped(ringCapacity, channelCapacity, k);
    RunKeepsExit(start, steps, t, k);
    RunKeepsNoSilentLoss(start, steps, t);
    RunKeepsOrigin(start, steps, t, k);
    var l := t.links[k];
    if l.ref.pending.Some? {
      GapAccountsIffInSpan(l.ref.pending.value.ToEvent(), e);
      if Abandoned(l, e) {
        AbandonedIsUnreported(t, k, e);
      }
    }
  }

  /** A source exit loses something if and only if a gap was owed: then, and
      only then, some event of a still-held subscription is reported nowhere. */
  lemma SourceExitIsCleanIffNothingIsOwed(
    ringCapacity: nat, channelCapacity: nat, steps: seq<Step>, t: Sys, k: Key)
    requires Runs(Init(ringCapacity, channelCapacity), steps, t) && k in t.links && t.links[k].source.Exited?
    requires Sole(t.subs, k) && Steady(t.links[k].fanned)
    ensures WellFormed(t)
    ensures (forall e | e in t.links[k].fanned && Accountable(e) :: AccountedFor(t, k, e))
      <==> t.links[k].ref.pending.None?
  {
    var start := Init(ringCapacity, channelCapacity);
    InitCapped(ringCapacity, channelCapacity, k);
    RunKeepsExit(start, steps, t, k);
    RunKeepsNoSilentLoss(start, steps, t);
    var l := t.links[k];
    if l.ref.pending.Some? {
      var e :| e in l.fanned && IsData(e) && e.sourceTs < I64_MAX && Accounts(l.ref.pending.value.ToEvent(), e);
      AbandonedIsUnreported(t, k, e);
    }
  }

  /** A subscription is only ever fanned its own instrument's events. */
  predicate OwnEvents(s: Sys, k: Key) {
    k in s.links ==> forall e | e in s.links[k].fanned && Accountable(e) :: InstrumentOf(e) == k.instrument
  }

  lemma {:induction false} RunKeepsOrigin(s: Sys, steps: seq<Step>, t: Sys, k: Key)
    requires OwnEvents(s, k) && Runs(s, steps, t)
    ensures OwnEvents(t, k)
    decreases |steps|
  {
    if steps != [] {
      StepKeepsOrigin(s, steps[0], k);
      RunKeepsOrigin(Apply(s, steps[0]), steps[1..], t, k);
    }
  }

  lemma StepKeepsOrigin(s: Sys, st: Step, k: Key)
    requires OwnEvents(s, k) && Enabled(s, st)
    ensures OwnEvents(Apply(s, st), k)
  {
  }
}
