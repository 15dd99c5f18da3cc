/** The client multiplexer's delivery side: an attached consumer, or a detached
    resume ring; the coalescer in front; the flush on re-attach. */
module ClientControllers {
  import opened Events
  import opened ClientRings
  import opened Coalescing

  datatype Sink = Attached | Detached(ring: Ring)

  /** `handed` is everything ever queued to a consumer's channel, over all of
      the consumers this client has had. */
  datatype Mux = Mux(
    sink: Sink,
    ringCapacity: nat,
    seen: Seen,
    handed: seq<MarketEvent>,
    droppedEvents: nat,
    occupancy: nat)

  function NewMux(capacity: nat): Mux {
    Mux(Detached(Fresh(capacity)), capacity, NothingSeen, [], 0, 0)
  }

  function RingOf(m: Mux): Ring {
    if m.sink.Attached? then Fresh(m.ringCapacity) else m.sink.ring
  }

  /** Deliver one event. `accepts` is whether an attached consumer's channel
      takes it: a full channel is waited on, so a refusal means the consumer is
      gone, and the sink flips to a fresh ring. */
  function Deliver(m: Mux, it: Item, accepts: bool): Mux {
    if m.sink.Attached? && accepts then m.(handed := m.handed + [it.ev])
    else
      var ring := RingOf(m);
      var ring' := Push(ring, it);
      m.(sink := Detached(ring'),
         droppedEvents := m.droppedEvents + (if Overflows(ring) then 1 else 0),
         occupancy := |ring'.buf|)
  }

  function DeliverAll(m: Mux, items: seq<Item>, accepts: seq<bool>): Mux
    requires |accepts| == |items|
    decreases |items|
  {
    if items == [] then m
    else
      var n := |items| - 1;
      Deliver(DeliverAll(m, items[..n], accepts[..n]), items[n], accepts[n])
  }

  lemma DeliverAllSnoc(m: Mux, items: seq<Item>, accepts: seq<bool>, n: nat)
    requires n < |items| == |accepts|
    ensures DeliverAll(m, items[..n + 1], accepts[..n + 1])
         == Deliver(DeliverAll(m, items[..n], accepts[..n]), items[n], accepts[n])
  {
    assert items[..n + 1][..n] == items[..n] && accepts[..n + 1][..n] == accepts[..n];
  }

  datatype TakeError = EventsAlreadyTaken

  class ClientController {
    /** `null` while a consumer is attached. */
    var ring: ClientRing?
    const ringCapacity: nat
    var seen: Seen
    var handed: seq<MarketEvent>
    var droppedEvents: nat
    var occupancy: nat

    ghost function State(): Mux
      reads this, ring
    {
      Mux(if ring == null then Attached else Detached(ring.State()),
          ringCapacity, seen, handed, droppedEvents, occupancy)
    }

    constructor (capacity: nat)
      ensures State() == NewMux(capacity) && fresh(ring)
    {
      ring := new ClientRing(capacity);
      ringCapacity := capacity;
      seen := NothingSeen;
      handed, droppedEvents, occupancy := [], 0, 0;
    }

    method DeliverEvent(ev: MarketEvent, provider: string, accepts: bool)
      modifies this, ring
      ensures State() == Deliver(old(State()), Item(ev, provider), accepts)
      ensures ring == old(ring) || fresh(ring)
      ensures old(ring) == null && accepts ==>
        handed == old(handed) + [ev] && ring == null && occupancy == old(occupancy) && droppedEvents == old(droppedEvents)
      ensures !(old(ring) == null && accepts) ==>
        handed == old(handed) && ring != null && |ring.buf| > 0 && ring.buf[|ring.buf| - 1] == Item(ev, provider)
    {
      if ring == null && accepts {
        handed := handed + [ev];
        return;
      }
      if ring == null {
        ring := new ClientRing(ringCapacity);
      }
      var evicted := ring.PushBack(ev, provider);
      if evicted {
        droppedEvents := droppedEvents + 1;
      }
      occupancy := |ring.buf|;
    }

    /** Route one substream event: coalesced controls stop here. */
    method Route(ev: MarketEvent, provider: string, accepts: bool)
      modifies this, ring
      ensures State() ==
        var v, m := Admit(old(seen), ev), old(State());
        if v.forward then Deliver(m.(seen := v.seen), Item(ev, provider), accepts) else m.(seen := v.seen)
      ensures ring == old(ring) || fresh(ring)
    {
      var v := Admit(seen, ev);
      seen := v.seen;
      if v.forward {
        DeliverEvent(ev, provider, accepts);
      }
    }

    /** Swap in a new consumer. Refused only while an open one is attached;
        `prior` is the ring to flush, if there was one. */
    method PrepareAttach(open: bool) returns (refused: Option<TakeError>, prior: ClientRing?)
      modifies this
      ensures refused.Some? <==> old(ring) == null && open
      ensures refused.Some? ==> prior == null && State() == old(State())
      ensures refused.None? ==> prior == old(ring) && State() == old(State()).(sink := Attached, occupancy := 0)
    {
      if ring == null && open {
        return Some(EventsAlreadyTaken), null;
      }
      refused, prior := None, ring;
      ring := null;
      occupancy := 0;
    }

    /** Drain a detached ring into the current sink, which an interrupted flush
        turns back into a ring. */
    method FlushRing(prior: ClientRing, accepts: seq<bool>)
      returns (gaps: seq<InstrumentGap>)
      requires prior != ring
      requires |accepts| == |prior.dropped| + |prior.buf|
      modifies this, ring
      ensures FlushOrder(old(prior.dropped), gaps)
      ensures |accepts| == |GapItems(gaps) + old(prior.buf)|
      ensures State() == DeliverAll(old(State()), GapItems(gaps) + old(prior.buf), accepts)
      ensures ring == old(ring) || fresh(ring)
      ensures old(ring) == null && (forall n | 0 <= n < |accepts| :: accepts[n]) ==>
        && ring == null && handed == old(handed) + EventsOf(GapItems(gaps) + old(prior.buf))
        && droppedEvents == old(droppedEvents)
    {
      var events;
      gaps, events := prior.IntoParts();
      FlushOrderLength(prior.dropped, gaps);
      var items := GapItems(gaps) + events;
      var n := 0;
      while n < |items|
        invariant n <= |items| == |accepts|
        invariant ring == old(ring) || fresh(ring)
        invariant State() == DeliverAll(old(State()), items[..n], accepts[..n])
      {
        DeliverAllSnoc(old(State()), items, accepts, n);
        DeliverEvent(items[n].ev, items[n].provider, accepts[n]);
        n := n + 1;
      }
      assert items[..n] == items && accepts[..n] == accepts;
      if old(ring) == null && forall n | 0 <= n < |accepts| :: accepts[n] {
        AcceptedAreHandedOver(old(State()), items, accepts);
      }
    }
  }

  /** A consumer that stays is handed everything, in order, and nothing else
      changes. */
  lemma {:induction false} AcceptedAreHandedOver(m: Mux, items: seq<Item>, accepts: seq<bool>)
    requires m.sink.Attached? && |accepts| == |items| && forall n | 0 <= n < |accepts| :: accepts[n]
    ensures DeliverAll(m, items, accepts) == m.(handed := m.handed + EventsOf(items))
    decreases |items|
  {
    if items == [] {
      assert m.handed + EventsOf(items) == m.handed;
    } else {
      var n := |items| - 1;
      AcceptedAreHandedOver(m, items[..n], accepts[..n]);
      HandedSnoc(m.handed, items);
    }
  }

  lemma HandedSnoc(handed: seq<MarketEvent>, items: seq<Item>)
    requires items != []
    ensures handed + EventsOf(items) == (handed + EventsOf(items[..|items| - 1])) + [items[|items| - 1].ev]
  {
  }

  /** A client without a consumer keeps everything in its ring, whatever a later
      consumer would have accepted, and hands over nothing. */
  lemma {:induction false} DetachedAreBuffered(m: Mux, items: seq<Item>, accepts: seq<bool>)
    requires m.sink.Detached? && |accepts| == |items|
    ensures var t := DeliverAll(m, items, accepts);
      t.sink == Detached(PushAll(m.sink.ring, items)) && t.handed == m.handed
    decreases |items|
  {
    if items != [] {
      var n := |items| - 1;
      DetachedAreBuffered(m, items[..n], accepts[..n]);
    }
  }

  /** A consumer that goes away at item `n` was handed everything before it; the
      rest, item `n` first, is in a fresh ring. */
  lemma InterruptedFlush(m: Mux, items: seq<Item>, accepts: seq<bool>, n: nat)
    requires m.sink.Attached? && |accepts| == |items| && n < |items| && !accepts[n]
    requires forall k | 0 <= k < n :: accepts[k]
    ensures var t := DeliverAll(m, items, accepts);
      t.handed == m.handed + EventsOf(items[..n]) && t.sink == Detached(PushAll(Fresh(m.ringCapacity), items[n..]))
  {
    var a := DeliverAll(m, items[..n], accepts[..n]);
    AcceptedAreHandedOver(m, items[..n], accepts[..n]);
    DeliverAllSnoc(m, items, accepts, n);
    var b := Deliver(a, items[n], accepts[n]);
    DeliverAllSplit(m, items, accepts, n + 1);
    DetachedAreBuffered(b, items[n + 1..], accepts[n + 1..]);
    PushAllCons(Fresh(m.ringCapacity), items[n..]);
    assert items[n..][1..] == items[n + 1..];
  }

  lemma {:induction false} DeliverAllSplit(m: Mux, items: seq<Item>, accepts: seq<bool>, n: nat)
    requires n <= |items| == |accepts|
    ensures DeliverAll(m, items, accepts) == DeliverAll(DeliverAll(m, items[..n], accepts[..n]), items[n..], accepts[n..])
    decreases |items|
  {
    if n == |items| {
      assert items[..n] == items && accepts[..n] == accepts;
    } else {
      var k := |items| - 1;
      assert items[..k][..n] == items[..n] && accepts[..k][..n] == accepts[..n];
      assert items[..k][n..] == items[n..][..k - n] && accepts[..k][n..] == accepts[n..][..k - n];
      DeliverAllSplit(m, items[..k], accepts[..k], n);
    }
  }

  lemma {:induction false} PushAllCons(r: Ring, items: seq<Item>)
    requires items != []
    ensures PushAll(r, items) == PushAll(Push(r, items[0]), items[1..])
    decreases |items|
  {
    if |items| == 1 {
      assert items[..0] == [] && items[1..] == [];
    } else {
      var n := |items| - 1;
      assert items[..n][1..] == items[1..][..n - 1] && items[..n][0] == items[0];
      PushAllCons(r, items[..n]);
    }
  }

  lemma FlushOrderLength(dropped: DropMap, gaps: seq<InstrumentGap>)
    requires FlushOrder(dropped, gaps)
    ensures |gaps| == |dropped|
  {
    DistinctCount(gaps);
    assert |dropped| == |dropped.Keys|;
  }

  lemma {:induction false} DistinctCount(gaps: seq<InstrumentGap>)
    requires DistinctInstruments(gaps)
    ensures |InstrumentsIn(gaps)| == |gaps|
  {
    if gaps != [] {
      var front, g := gaps[..|gaps| - 1], gaps[|gaps| - 1];
      DistinctCount(front);
      assert InstrumentsIn(gaps) == InstrumentsIn(front) + {g.instrument};
    }
  }
}
