/** Order and conservation over whole runs of the composed pipeline. */
module PipelineOrder {
  import opened Events
  import opened ClientRings
  import opened ClientControllers
  import opened Pipeline
  import F = FanOuts

  // ------------------------------------------------------------------- order

  predicate Never(subs: seq<Key>, i: Instrument) {
    forall n | 0 <= n < |subs| :: subs[n].instrument != i
  }

  /** `k` is the only subscription ever made on its instrument: one kind, one
      subscription epoch. */
  predicate Sole(subs: seq<Key>, k: Key) {
    exists n :: 0 <= n < |subs| && subs[n] == k
      && forall m | 0 <= m < |subs| && m != n :: subs[m].instrument != k.instrument
  }

  predicate Ordered(s: Sys, k: Key)
    requires WellFormed(s)
  {
    && (Never(s.subs, k.instrument) ==> Line(s, k) == [])
    && (Sole(s.subs, k) ==> Increasing(Line(s, k)) && (k in s.links ==> AllBelow(Line(s, k), s.links[k].next)))
  }

  /** Another subscription's events never carry `k`'s instrument. */
  lemma OthersAreElsewhere(s: Sys, k: Key, k': Key)
    requires WellFormed(s) && k' in s.links && k' != k
    requires Never(s.subs, k.instrument) || Sole(s.subs, k)
    ensures k'.instrument != k.instrument
  {
    var n :| 0 <= n < |s.subs| && s.subs[n] == k';
  }

  lemma NeverOrSoleBefore(subs: seq<Key>, k: Key, k': Key)
    requires Never(subs + [k'], k.instrument) || Sole(subs + [k'], k)
    ensures k'.instrument == k.instrument ==> Never(subs, k.instrument) && k' == k
    ensures k'.instrument != k.instrument ==>
      (Never(subs, k.instrument) <==> Never(subs + [k'], k.instrument)) && (Sole(subs, k) <==> Sole(subs + [k'], k))
  {
    var subs' := subs + [k'];
    assert forall n | 0 <= n < |subs| :: subs'[n] == subs[n];
    assert subs'[|subs|] == k';
  }

  /** A fan-out adds at most the new event's `seq`, at the end. */
  lemma OfferSeqs(i: Instrument, l: Link, ev: MarketEvent)
    requires l.ref.tx.Valid() && l.source == Running && F.PendingFor(l.ref, i)
    requires F.Offer(l.ref, ev).Keep? && (Accountable(ev) ==> InstrumentOf(ev) == i)
    ensures var l' := l.(ref := F.Offer(l.ref, ev).referrer);
      var before, after := SeqsOf(i, l.ref.tx.Queue()) + PendingSeqs(l), SeqsOf(i, l'.ref.tx.Queue()) + PendingSeqs(l');
      after == before || after == before + [ev.seqNo as int]
  {
    var q, added := l.ref.tx.Queue(), F.Added(l.ref, ev);
    assert F.Offer(l.ref, ev).referrer.tx.Queue() == q + added;
    if added == [ev] {
      SeqsOfSnoc(i, q, ev);
    } else if added == [] {
      assert q + added == q;
    } else {
      var g := l.ref.pending.value.ToEvent();
      SeqsOfSnoc(i, q, g);
      if added == [g, ev] {
        assert q + [g, ev] == (q + [g]) + [ev];
        SeqsOfSnoc(i, q + [g], ev);
      }
    }
  }

  /** Removing a stretch from a subscription's line keeps it ordered. */
  lemma OrderedWithout(s: Sys, s': Sys, k: Key, a: seq<int>, x: seq<int>, b: seq<int>)
    requires WellFormed(s) && WellFormed(s') && Ordered(s, k) && s'.subs == s.subs
    requires Line(s, k) == a + x + b && Line(s', k) == a + b
    requires k in s'.links ==> k in s.links && s'.links[k].next == s.links[k].next
    ensures Ordered(s', k)
  {
    assert a + x + b == [] ==> |a| == 0 && |b| == 0;
    if Sole(s.subs, k) {
      IncreasingWithout(a, x, b);
      if k in s'.links {
        AllBelowWithout(a, x, b, s.links[k].next);
      }
    }
  }

  lemma OrderedSame(s: Sys, s': Sys, k: Key)
    requires WellFormed(s) && WellFormed(s') && Ordered(s, k) && s'.subs == s.subs
    requires Line(s', k) == Line(s, k)
    requires k in s'.links ==> k in s.links && s.links[k].next <= s'.links[k].next
    ensures Ordered(s', k)
  {
  }

  lemma FannedLine(s: Sys, s': Sys, k: Key, ev: MarketEvent)
    requires WellFormed(s) && WellFormed(s') && k in s.links && k in s'.links
    requires s'.mux == s.mux && s'.work == s.work && s.links[k].source == Running
    requires F.Offer(s.links[k].ref, ev).Keep? && (Accountable(ev) ==> InstrumentOf(ev) == k.instrument)
    requires s'.links[k].ref == F.Offer(s.links[k].ref, ev).referrer && s'.links[k].source == Running
    ensures Line(s', k) == Line(s, k) || Line(s', k) == Line(s, k) + [ev.seqNo as int]
  {
    OfferSeqs(k.instrument, s.links[k], ev);
    var base := MuxSeqs(s.mux, k.instrument) + SeqsOf(k.instrument, EventsOf(s.work));
    if LinkSeqs(s', k) == LinkSeqs(s, k) + [ev.seqNo as int] {
      assert base + (LinkSeqs(s, k) + [ev.seqNo as int]) == Line(s, k) + [ev.seqNo as int];
    }
  }

  lemma FannedKeepsOrdered(s: Sys, k: Key, k': Key, ev: MarketEvent)
    requires WellFormed(s) && Enabled(s, Fanned(k', ev)) && WellFormed(Apply(s, Fanned(k', ev))) && Ordered(s, k)
    ensures Ordered(Apply(s, Fanned(k', ev)), k)
  {
    var s' := Apply(s, Fanned(k', ev));
    if k' == k {
      FannedLine(s, s', k, ev);
      assert k in s.subs && !Never(s.subs, k.instrument);
      var line := Line(s', k);
      if Sole(s.subs, k) {
        assert Increasing(line) && AllBelow(line, s'.links[k].next);
      }
    } else {
      assert LinkSeqs(s', k) == LinkSeqs(s, k);
      OrderedSame(s, s', k);
    }
  }

  /** A routed event moves from the head of its channel into delivery. */
  lemma RoutedLine(s: Sys, s': Sys, k: Key, head: MarketEvent)
    requires WellFormed(s) && WellFormed(s') && k in s.links && k in s'.links
    requires s'.mux == s.mux.(seen := s'.mux.seen) && s.work == []
    requires s'.links[k].source == s.links[k].source && s'.links[k].ref.pending == s.links[k].ref.pending
    requires s.links[k].ref.tx.Queue() == [head] + s'.links[k].ref.tx.Queue()
    requires EventsOf(s'.work) == [head] || (EventsOf(s'.work) == [] && !Accountable(head))
    ensures Line(s', k) == Line(s, k)
  {
    var i := k.instrument;
    SeqsOfCons(i, head, s'.links[k].ref.tx.Queue());
    SeqsOfOne(i, head);
    assert EventsOf(s.work) == [];
    MoveAcross(MuxSeqs(s.mux, i), SeqAt(i, head), SeqsOf(i, s'.links[k].ref.tx.Queue()), PendingSeqs(s.links[k]));
  }

  lemma MoveAcross(m: seq<int>, e: seq<int>, q: seq<int>, p: seq<int>)
    ensures m + e + (q + p) == m + [] + ((e + q) + p)
  {
  }

  /** An event of another instrument enters delivery. */
  lemma ForeignLine(s: Sys, s': Sys, k: Key, head: MarketEvent)
    requires WellFormed(s) && WellFormed(s') && s'.mux == s.mux.(seen := s'.mux.seen) && s.work == []
    requires (k in s'.links <==> k in s.links) && (k in s.links ==> s'.links[k] == s.links[k])
    requires EventsOf(s'.work) == [head] || EventsOf(s'.work) == []
    requires Accountable(head) ==> InstrumentOf(head) != k.instrument
    ensures Line(s', k) == Line(s, k)
  {
    SeqsOfOne(k.instrument, head);
    assert EventsOf(s.work) == [];
    assert LinkSeqs(s', k) == LinkSeqs(s, k);
  }

  /** What routing the head of `k'` changes. */
  lemma RoutedEffect(s: Sys, k': Key) returns (head: MarketEvent)
    requires WellFormed(s) && Enabled(s, Routed(k')) && WellFormed(Apply(s, Routed(k')))
    ensures var s' := Apply(s, Routed(k'));
      && s.links[k'].ref.tx.Queue() == [head] + s'.links[k'].ref.tx.Queue()
      && (Accountable(head) ==> InstrumentOf(head) == k'.instrument)
      && (EventsOf(s'.work) == [head] || (EventsOf(s'.work) == [] && !Accountable(head)))
  {
    var tx := s.links[k'].ref.tx;
    head := tx.accepted[tx.taken];
    assert head in tx.accepted;
    assert tx.Queue() == [head] + F.Drained(tx).Queue();
  }

  lemma RoutedKeepsOrdered(s: Sys, k: Key, k': Key)
    requires WellFormed(s) && Enabled(s, Routed(k')) && WellFormed(Apply(s, Routed(k'))) && Ordered(s, k)
    ensures Ordered(Apply(s, Routed(k')), k)
  {
    var s' := Apply(s, Routed(k'));
    var head := RoutedEffect(s, k');
    if k' == k {
      RoutedLine(s, s', k, head);
      OrderedSame(s, s', k);
    } else if Never(s.subs, k.instrument) || Sole(s.subs, k) {
      OthersAreElsewhere(s, k, k');
      ForeignLine(s, s', k, head);
      OrderedSame(s, s', k);
    }
  }

  /** Evicting the oldest entry either makes it the instrument's hole start, or
      removes it from behind that start. */
  lemma EvictSeqs(i: Instrument, dropped: DropMap, it: Item, rest: seq<int>)
    returns (a: seq<int>, x: seq<int>)
    ensures DropSeqs(dropped, i) + (SeqAt(i, it.ev) + rest) == a + x + rest
    ensures DropSeqs(NoteDrop(dropped, it), i) == a
  {
    if i in dropped {
      a, x := DropSeqs(dropped, i), SeqAt(i, it.ev);
    } else {
      a, x := SeqAt(i, it.ev), [];
    }
  }

  lemma PushSeqs(i: Instrument, r: Ring, it: Item) returns (a: seq<int>, x: seq<int>, b: seq<int>)
    ensures RingSeqs(Detached(r), i) == a + x + b
    ensures RingSeqs(Detached(Push(r, it)), i) == a + (b + SeqAt(i, it.ev))
  {
    var kept := if Overflows(r) then r.buf[1..] else r.buf;
    b := SeqsOf(i, EventsOf(kept));
    assert EventsOf(Push(r, it).buf) == EventsOf(kept) + [it.ev];
    SeqsOfSnoc(i, EventsOf(kept), it.ev);
    if Overflows(r) {
      assert EventsOf(r.buf) == [r.buf[0].ev] + EventsOf(kept);
      SeqsOfCons(i, r.buf[0].ev, EventsOf(kept));
      a, x := EvictSeqs(i, r.dropped, r.buf[0], b);
    } else {
      a, x := DropSeqs(r.dropped, i), [];
      assert a + x == a;
    }
  }

  lemma DeliverSeqs(m: Mux, it: Item, accepts: bool, i: Instrument) returns (a: seq<int>, x: seq<int>, b: seq<int>)
    ensures MuxSeqs(m, i) + SeqAt(i, it.ev) == a + x + b
    ensures MuxSeqs(Deliver(m, it, accepts), i) == a + b
  {
    var h, e := SeqsOf(i, m.handed), SeqAt(i, it.ev);
    if m.sink.Attached? && accepts {
      SeqsOfSnoc(i, m.handed, it.ev);
      a, x, b := h + e, [], [];
    } else {
      a, x, b := PushSeqs(i, RingOf(m), it);
      assert EventsOf([]) == [];
      assert RingSeqs(m.sink, i) == RingSeqs(Detached(RingOf(m)), i);
      PushedLine(h, a, x, b, e);
      a, b := h + a, b + e;
    }
  }

  lemma PushedLine(h: seq<int>, a: seq<int>, x: seq<int>, b: seq<int>, e: seq<int>)
    ensures h + (a + x + b) + e == (h + a) + x + (b + e)
    ensures h + (a + (b + e)) == (h + a) + (b + e)
  {
  }

  lemma DeliveredLine(m: seq<int>, e: seq<int>, w: seq<int>, l: seq<int>, a: seq<int>, x: seq<int>, b: seq<int>)
    requires m + e == a + x + b
    ensures m + (e + w) + l == a + x + (b + (w + l))
    ensures (a + b) + w + l == a + (b + (w + l))
  {
    assert m + (e + w) + l == (m + e) + (w + l);
  }

  /** The whole step, from its effect on the three places it touches. */
  lemma DeliveredKeepsOrdered(s: Sys, s': Sys, k: Key)
    requires WellFormed(s) && WellFormed(s') && Ordered(s, k)
    requires s'.links == s.links && s'.subs == s.subs
    requires s.work != [] && s'.work == s.work[1..] && s'.mux == Deliver(s.mux, s.work[0], s.open)
    ensures Ordered(s', k)
  {
    var i, it := k.instrument, s.work[0];
    var e, w, l := SeqAt(i, it.ev), SeqsOf(i, EventsOf(s'.work)), LinkSeqs(s, k);
    EventsOfHead(s.work);
    SeqsOfCons(i, it.ev, EventsOf(s'.work));
    var a, x, b := DeliverSeqs(s.mux, it, s.open, i);
    DeliveredLine(MuxSeqs(s.mux, i), e, w, l, a, x, b);
    OrderedWithout(s, s', k, a, x, b + (w + l));
  }

  lemma TakenLine(h: seq<int>, r: seq<int>, l: seq<int>)
    ensures (h + r) + [] + l == (h + []) + r + l
  {
  }

  lemma TakenKeepsOrdered(s: Sys, s': Sys, k: Key, gaps: seq<InstrumentGap>)
    requires WellFormed(s) && WellFormed(s') && Ordered(s, k)
    requires s'.links == s.links && s'.subs == s.subs && s.work == []
    requires s'.mux.handed == s.mux.handed && s'.mux.sink == Attached
    requires s.mux.sink.Detached? ==>
      FlushOrder(s.mux.sink.ring.dropped, gaps) && s'.work == GapItems(gaps) + s.mux.sink.ring.buf
    requires s.mux.sink.Attached? ==> s'.work == []
    ensures Ordered(s', k)
  {
    var i := k.instrument;
    assert EventsOf([]) == [];
    if s.mux.sink.Detached? {
      FlushSeqs(s.mux.sink.ring, gaps, i);
    }
    assert SeqsOf(i, EventsOf(s'.work)) == RingSeqs(s.mux.sink, i);
    TakenLine(SeqsOf(i, s.mux.handed), RingSeqs(s.mux.sink, i), LinkSeqs(s, k));
    OrderedSame(s, s', k);
  }

  lemma JoinedLine(s: Sys, s': Sys, k: Key)
    requires WellFormed(s) && WellFormed(s') && k !in s.links && k in s'.links
    requires s'.mux == s.mux && s'.work == s.work && s'.links[k].ref.pending.None?
    requires forall e | e in s'.links[k].ref.tx.Queue() :: !Accountable(e)
    ensures Line(s', k) == Line(s, k)
  {
    SeqsOfElsewhere(k.instrument, s'.links[k].ref.tx.Queue());
    assert LinkSeqs(s', k) == [] == LinkSeqs(s, k);
  }

  /** What subscribing `key` changes, seen from `k`. */
  ghost predicate Joining(s: Sys, s': Sys, key: Key, k: Key)
    requires WellFormed(s) && WellFormed(s')
  {
    && s'.mux == s.mux && s'.work == s.work && s'.subs == s.subs + [key]
    && (key != k ==> (k in s'.links <==> k in s.links) && (k in s.links ==> s'.links[k] == s.links[k]))
    && (key == k ==>
      && k !in s.links && k in s'.links && s'.links[k].fanned == [] && s'.links[k].ref.pending.None?
      && forall e | e in s'.links[k].ref.tx.Queue() :: !Accountable(e))
  }

  lemma JoinedQueue(ch: F.Channel, replay: Option<MarketEvent>)
    requires ch.accepted == [] && ch.taken == 0
    ensures var q := F.Joined(ch, replay);
      q.Valid() ==> forall e | e in q.Queue() :: replay == Some(e)
  {
  }

  lemma SubscribedJoins(s: Sys, st: Step, k: Key)
    requires st.Subscribed? && WellFormed(s) && Enabled(s, st) && WellFormed(Apply(s, st))
    ensures Joining(s, Apply(s, st), st.key, k)
  {
    JoinedQueue(F.Channel(s.channelCapacity, [], 0, false), st.replay);
  }

  lemma JoiningKeepsOrdered(s: Sys, s': Sys, key: Key, k: Key)
    requires WellFormed(s) && WellFormed(s') && Joining(s, s', key, k) && Ordered(s, k)
    ensures Ordered(s', k)
  {
    if Never(s'.subs, k.instrument) || Sole(s'.subs, k) {
      NeverOrSoleBefore(s.subs, k, key);
      if key == k {
        JoinedLine(s, s', k);
        assert Line(s, k) == [];
      } else {
        assert LinkSeqs(s', k) == LinkSeqs(s, k);
        assert Line(s', k) == Line(s, k);
      }
    }
  }

  lemma EndedKeepsOrdered(s: Sys, k: Key, st: Step)
    requires st.Unsubscribed? || st.SubstreamEnded? || st.Closing? || st.SourceExited?
    requires WellFormed(s) && Enabled(s, st) && WellFormed(Apply(s, st)) && Ordered(s, k)
    ensures Ordered(Apply(s, st), k)
  {
    var s' := Apply(s, st);
    if !st.SourceExited? {
      ControlOnly(s'.work, k.instrument);
      assert EventsOf(s.work) == [];
    }
    EndedLine(s, s', k);
  }

  lemma ControlOnly(work: seq<Item>, i: Instrument)
    requires |work| == 1 && !Accountable(work[0].ev)
    ensures SeqsOf(i, EventsOf(work)) == []
  {
    assert EventsOf(work) == [work[0].ev];
    SeqsOfOne(i, work[0].ev);
  }

  lemma Cut(base: seq<int>, q: seq<int>, p: seq<int>)
    ensures base + (q + p) == (base + q) + p + []
    ensures base + (q + p) == base + (q + p) + []
    ensures base + (q + []) == (base + q) + []
  {
  }

  lemma EndedLine(s: Sys, s': Sys, k: Key)
    requires WellFormed(s) && WellFormed(s') && Ordered(s, k) && s'.subs == s.subs && s'.mux == s.mux
    requires SeqsOf(k.instrument, EventsOf(s'.work)) == SeqsOf(k.instrument, EventsOf(s.work))
    requires k in s'.links ==> k in s.links && s'.links[k] == s.links[k].(source := s'.links[k].source)
    requires k in s'.links ==> s'.links[k].source == s.links[k].source || s'.links[k].source.Exited?
    ensures Ordered(s', k)
  {
    if k in s.links && (k !in s'.links || s'.links[k].source != s.links[k].source) {
      var base := MuxSeqs(s.mux, k.instrument) + SeqsOf(k.instrument, EventsOf(s.work));
      var q, p := SeqsOf(k.instrument, s.links[k].ref.tx.Queue()), PendingSeqs(s.links[k]);
      Cut(base, q, p);
      if k !in s'.links {
        OrderedWithout(s, s', k, base, q + p, []);
      } else {
        OrderedWithout(s, s', k, base + q, p, []);
      }
    } else {
      OrderedSame(s, s', k);
    }
  }

  lemma StepKeepsOrdered(s: Sys, st: Step, k: Key)
    requires WellFormed(s) && Enabled(s, st) && Ordered(s, k)
    ensures WellFormed(Apply(s, st)) && Ordered(Apply(s, st), k)
  {
    StepKeepsWellFormed(s, st);
    match st
    case Fanned(k', ev) => FannedKeepsOrdered(s, k, k', ev);
    case Routed(k') => RoutedKeepsOrdered(s, k, k');
    case Delivered => DeliveredKeepsOrdered(s, Apply(s, st), k);
    case Taken(gaps) => TakenKeepsOrdered(s, Apply(s, st), k, gaps);
    case Subscribed(k', _, _, _) =>
      SubscribedJoins(s, st, k);
      JoiningKeepsOrdered(s, Apply(s, st), k', k);
    case ConsumerGone =>
    case _ => EndedKeepsOrdered(s, k, st);
  }

  lemma {:induction false} RunKeepsOrdered(s: Sys, steps: seq<Step>, t: Sys, k: Key)
    requires WellFormed(s) && Ordered(s, k) && Runs(s, steps, t)
    ensures WellFormed(t) && Ordered(t, k)
    decreases |steps|
  {
    if steps != [] {
      StepKeepsOrdered(s, steps[0], k);
      RunKeepsOrdered(Apply(s, steps[0]), steps[1..], t, k);
    }
  }

  /** However often the consumer detaches, a flush is interrupted or a ring
      overflows, a client that holds one kind of an instrument within one
      subscription epoch is handed that instrument's data and gaps in strictly
      increasing `seq` order; and everything still on its way comes later. */
  lemma HandedOverStreamIsStrictlyIncreasing(
    ringCapacity: nat, channelCapacity: nat, steps: seq<Step>, t: Sys, k: Key)
    requires Runs(Init(ringCapacity, channelCapacity), steps, t) && Sole(t.subs, k)
    ensures WellFormed(t) && Increasing(Line(t, k))
    ensures Increasing(SeqsOf(k.instrument, t.mux.handed))
  {
    RunKeepsOrdered(Init(ringCapacity, channelCapacity), steps, t, k);
    var h, r := SeqsOf(k.instrument, t.mux.handed), RingSeqs(t.mux.sink, k.instrument);
    var w, l := SeqsOf(k.instrument, EventsOf(t.work)), LinkSeqs(t, k);
    LineSplit(h, r, w, l);
    IncreasingPrefix(h, r + (w + l));
  }

  lemma LineSplit(h: seq<int>, r: seq<int>, w: seq<int>, l: seq<int>)
    ensures (h + r) + w + l == h + (r + (w + l))
  {
  }

  // ------------------------------------------------------------ conservation

  function Buffered(m: Mux): nat {
    if m.sink.Attached? then 0 else |m.sink.ring.buf|
  }

  predicate Conserved(s: Sys) {
    && s.inputs + s.synthesised == |s.mux.handed| + Buffered(s.mux) + |s.work| + s.mux.droppedEvents
    && s.mux.occupancy == Buffered(s.mux)
    && (s.mux.sink.Detached? ==> s.mux.sink.ring.capacity == Bound(s.mux.ringCapacity))
    && Buffered(s.mux) <= Bound(s.mux.ringCapacity)
  }

  lemma StepKeepsConserved(s: Sys, st: Step)
    requires Conserved(s) && Enabled(s, st)
    ensures Conserved(Apply(s, st)) && Apply(s, st).mux.ringCapacity == s.mux.ringCapacity
  {
  }

  lemma {:induction false} RunKeepsConserved(s: Sys, steps: seq<Step>, t: Sys)
    requires Conserved(s) && Runs(s, steps, t)
    ensures Conserved(t) && t.mux.ringCapacity == s.mux.ringCapacity
    decreases |steps|
  {
    if steps != [] {
      StepKeepsConserved(s, steps[0]);
      RunKeepsConserved(Apply(s, steps[0]), steps[1..], t);
    }
  }

  /** Whenever the controller is between deliveries, every event that entered
      delivery and every gap a flush made has been handed over, sits in the
      ring, or is counted as dropped; and the reported occupancy is exact and
      bounded. */
  lemma DeliveryIsConserved(ringCapacity: nat, channelCapacity: nat, steps: seq<Step>, t: Sys)
    requires Runs(Init(ringCapacity, channelCapacity), steps, t) && t.work == []
    ensures t.inputs + t.synthesised == |t.mux.handed| + t.mux.occupancy + t.mux.droppedEvents
    ensures t.mux.occupancy <= Bound(ringCapacity)
  {
    RunKeepsConserved(Init(ringCapacity, channelCapacity), steps, t);
  }
}
