/** The per-client resume ring: a bounded FIFO whose evictions are recorded per
    instrument, so that a later flush can report each loss once. */
module ClientRings {
  import opened Events

  /** A buffered event with the provider its subscription belongs to. */
  datatype Item = Item(ev: MarketEvent, provider: string)

  datatype DroppedSpan = DroppedSpan(span: GapSpan, firstSeq: Seq, provider: string)

  type DropMap = map<Instrument, DroppedSpan>

  datatype Ring = Ring(capacity: nat, buf: seq<Item>, dropped: DropMap)

  function Bound(capacity: nat): (c: nat)
    ensures c >= 1
  {
    if capacity < 1 then 1 else capacity
  }

  function Fresh(capacity: nat): Ring {
    Ring(Bound(capacity), [], map[])
  }

  function NoteDrop(dropped: DropMap, it: Item): DropMap {
    if !Accountable(it.ev) then dropped
    else
      var i, span := InstrumentOf(it.ev), SpanOf(it.ev);
      if i in dropped then dropped[i := dropped[i].(span := Hull(dropped[i].span, span))]
      else dropped[i := DroppedSpan(span, it.ev.seqNo, if IsGap(it.ev) then it.ev.control.provider else it.provider)]
  }

  predicate Overflows(r: Ring) {
    |r.buf| > 0 && |r.buf| == r.capacity
  }

  function Push(r: Ring, it: Item): Ring {
    if Overflows(r) then Ring(r.capacity, r.buf[1..] + [it], NoteDrop(r.dropped, r.buf[0]))
    else r.(buf := r.buf + [it])
  }

  /** One instrument's report on flush. */
  datatype InstrumentGap = InstrumentGap(firstSeq: Seq, instrument: Instrument, span: GapSpan, provider: string)
  {
    function ToItem(): Item {
      Item(GapEvent(firstSeq, instrument, span, provider), provider)
    }
  }

  predicate Reports(g: InstrumentGap, dropped: DropMap) {
    g.instrument in dropped && dropped[g.instrument] == DroppedSpan(g.span, g.firstSeq, g.provider)
  }

  predicate SortedBySeq(gaps: seq<InstrumentGap>) {
    forall a, b | 0 <= a < b < |gaps| :: gaps[a].firstSeq <= gaps[b].firstSeq
  }

  predicate DistinctInstruments(gaps: seq<InstrumentGap>) {
    forall a, b | 0 <= a < b < |gaps| :: gaps[a].instrument != gaps[b].instrument
  }

  function InstrumentsIn(gaps: seq<InstrumentGap>): set<Instrument> {
    set n | 0 <= n < |gaps| :: gaps[n].instrument
  }

  /** A legal flush order of the dropped map: one report per instrument, by
      first-evicted `seq`. Instruments that share a first `seq` come in the
      map's arbitrary iteration order, so this is a relation, not a function. */
  predicate FlushOrder(dropped: DropMap, gaps: seq<InstrumentGap>) {
    && (forall n | 0 <= n < |gaps| :: Reports(gaps[n], dropped))
    && InstrumentsIn(gaps) == dropped.Keys
    && DistinctInstruments(gaps)
    && SortedBySeq(gaps)
  }

  function GapItems(gaps: seq<InstrumentGap>): (r: seq<Item>)
    ensures |r| == |gaps|
  {
    seq(|gaps|, n requires 0 <= n < |gaps| => gaps[n].ToItem())
  }

  function EventsOf(items: seq<Item>): (r: seq<MarketEvent>)
    ensures |r| == |items|
  {
    seq(|items|, n requires 0 <= n < |items| => items[n].ev)
  }

  lemma EventsOfConcat(a: seq<Item>, b: seq<Item>)
    ensures EventsOf(a + b) == EventsOf(a) + EventsOf(b)
  {
  }

  lemma EventsOfHead(items: seq<Item>)
    requires items != []
    ensures EventsOf(items) == [items[0].ev] + EventsOf(items[1..])
  {
  }

  // ---------------------------------------------------------------- the ring

  class ClientRing {
    var capacity: nat
    var buf: seq<Item>
    var dropped: DropMap

    function State(): Ring
      reads this
    {
      Ring(capacity, buf, dropped)
    }

    constructor (capacity: nat)
      ensures State() == Fresh(capacity)
    {
      this.capacity := if capacity < 1 then 1 else capacity;
      buf := [];
      dropped := map[];
    }

    method PushBack(ev: MarketEvent, provider: string) returns (evicted: bool)
      modifies this
      ensures State() == Push(old(State()), Item(ev, provider))
      ensures evicted <==> Overflows(old(State()))
    {
      evicted := false;
      if |buf| == capacity && |buf| > 0 {
        var oldest := buf[0];
        buf := buf[1..];
        NoteEviction(oldest);
        evicted := true;
      }
      buf := buf + [Item(ev, provider)];
    }

    method NoteEviction(it: Item)
      modifies this`dropped
      ensures dropped == NoteDrop(old(dropped), it)
    {
      if Accountable(it.ev) {
        var i, span := InstrumentOf(it.ev), SpanOf(it.ev);
        if i in dropped {
          var d := dropped[i];
          dropped := dropped[i := d.(span := Hull(d.span, span))];
        } else {
          var provider := if IsGap(it.ev) then it.ev.control.provider else it.provider;
          dropped := dropped[i := DroppedSpan(span, it.ev.seqNo, provider)];
        }
      }
    }

    /** Collects the dropped map in whatever order it iterates and sorts by
        first-evicted `seq`. */
    method IntoParts() returns (gaps: seq<InstrumentGap>, events: seq<Item>)
      ensures FlushOrder(dropped, gaps)
      ensures events == buf
    {
      gaps, events := [], buf;
      var todo := dropped.Keys;
      while todo != {}
        invariant todo <= dropped.Keys
        invariant forall n | 0 <= n < |gaps| :: Reports(gaps[n], dropped) && gaps[n].instrument !in todo
        invariant InstrumentsIn(gaps) == dropped.Keys - todo
        invariant DistinctInstruments(gaps) && SortedBySeq(gaps)
      {
        var i :| i in todo;
        todo := todo - {i};
        var d := dropped[i];
        gaps := InsertBySeq(gaps, InstrumentGap(d.firstSeq, i, d.span, d.provider));
      }
    }
  }

  method InsertBySeq(gaps: seq<InstrumentGap>, g: InstrumentGap) returns (r: seq<InstrumentGap>)
    requires SortedBySeq(gaps) && DistinctInstruments(gaps)
    requires forall n | 0 <= n < |gaps| :: gaps[n].instrument != g.instrument
    ensures SortedBySeq(r) && DistinctInstruments(r)
    ensures InstrumentsIn(r) == InstrumentsIn(gaps) + {g.instrument}
    ensures forall n | 0 <= n < |r| :: r[n] == g || r[n] in gaps
  {
    var at := |gaps|;
    while at > 0 && gaps[at - 1].firstSeq > g.firstSeq
      invariant 0 <= at <= |gaps|
      invariant at < |gaps| ==> gaps[at].firstSeq > g.firstSeq
    {
      at := at - 1;
    }
    r := Inserted(gaps, at, g);
    InsertedSorted(gaps, at, g);
    InsertedInstruments(gaps, at, g);
  }

  function Inserted(gaps: seq<InstrumentGap>, at: nat, g: InstrumentGap): (r: seq<InstrumentGap>)
    requires at <= |gaps|
    ensures |r| == |gaps| + 1
    ensures forall n | 0 <= n < |r| :: r[n] == if n < at then gaps[n] else if n == at then g else gaps[n - 1]
  {
    gaps[..at] + [g] + gaps[at..]
  }

  lemma InsertedSorted(gaps: seq<InstrumentGap>, at: nat, g: InstrumentGap)
    requires at <= |gaps| && SortedBySeq(gaps)
    requires at > 0 ==> gaps[at - 1].firstSeq <= g.firstSeq
    requires at < |gaps| ==> g.firstSeq <= gaps[at].firstSeq
    ensures SortedBySeq(Inserted(gaps, at, g))
  {
    var r := Inserted(gaps, at, g);
    forall a, b | 0 <= a < b < |r|
      ensures r[a].firstSeq <= r[b].firstSeq
    {
      if b == at {
        assert gaps[a].firstSeq <= gaps[at - 1].firstSeq;
      } else if a == at {
        assert gaps[at].firstSeq <= gaps[b - 1].firstSeq;
      } else {
        var a', b' := if a < at then a else a - 1, if b < at then b else b - 1;
        assert r[a] == gaps[a'] && r[b] == gaps[b'];
      }
    }
  }

  lemma InsertedInstruments(gaps: seq<InstrumentGap>, at: nat, g: InstrumentGap)
    requires at <= |gaps|
    requires forall n | 0 <= n < |gaps| :: gaps[n].instrument != g.instrument
    ensures InstrumentsIn(Inserted(gaps, at, g)) == InstrumentsIn(gaps) + {g.instrument}
    ensures DistinctInstruments(gaps) ==> DistinctInstruments(Inserted(gaps, at, g))
  {
    var r := Inserted(gaps, at, g);
    assert r[at].instrument == g.instrument;
    forall n | 0 <= n < |gaps|
      ensures gaps[n].instrument in InstrumentsIn(r)
    {
      assert r[if n < at then n else n + 1] == gaps[n];
    }
  }

  // -------------------------------------------- what the ring holds, declared

  function PushAll(r: Ring, items: seq<Item>): Ring
    decreases |items|
  {
    if items == [] then r else Push(PushAll(r, items[..|items| - 1]), items[|items| - 1])
  }

  predicate LostOf(i: Instrument, e: MarketEvent) {
    Accountable(e) && InstrumentOf(e) == i
  }

  /** `d` is the exact account of instrument `i`'s events in `lost`: it starts
      at the first one's `seq` and its span is their hull. */
  ghost predicate ExactAccount(d: DroppedSpan, i: Instrument, lost: seq<MarketEvent>) {
    && SeqsOf(i, lost) != [] && d.firstSeq == SeqsOf(i, lost)[0]
    && (forall e | e in lost && LostOf(i, e) :: Within(SpanOf(e), d.span))
    && (exists e :: e in lost && LostOf(i, e) && SpanOf(e).fromTs == d.span.fromTs)
    && (exists e :: e in lost && LostOf(i, e) && SpanOf(e).toTs == d.span.toTs)
  }

  ghost predicate ExactAt(dropped: DropMap, lost: seq<MarketEvent>, i: Instrument) {
    if i in dropped then ExactAccount(dropped[i], i, lost) else SeqsOf(i, lost) == []
  }

  ghost predicate ExactDrops(dropped: DropMap, lost: seq<MarketEvent>) {
    forall i :: ExactAt(dropped, lost, i)
  }

  /** One more lost event, seen by one instrument's account. */
  lemma AccountGrows(d: DroppedSpan, i: Instrument, lost: seq<MarketEvent>, e: MarketEvent)
    requires ExactAccount(d, i, lost)
    ensures ExactAccount(if LostOf(i, e) then d.(span := Hull(d.span, SpanOf(e))) else d, i, lost + [e])
  {
    SeqsOfSnoc(i, lost, e);
    var lost' := lost + [e];
    assert lost'[|lost|] == e;
    var a :| a in lost && LostOf(i, a) && SpanOf(a).fromTs == d.span.fromTs;
    var b :| b in lost && LostOf(i, b) && SpanOf(b).toTs == d.span.toTs;
    assert a in lost' && b in lost' && e in lost';
  }

  lemma AccountStarts(d: DroppedSpan, i: Instrument, lost: seq<MarketEvent>, e: MarketEvent)
    requires SeqsOf(i, lost) == [] && LostOf(i, e) && d.span == SpanOf(e) && d.firstSeq == e.seqNo
    ensures ExactAccount(d, i, lost + [e])
  {
    SeqsOfSnoc(i, lost, e);
    assert (lost + [e])[|lost|] == e;
    forall x | x in lost && LostOf(i, x)
      ensures false
    {
      NoSeqsMeansNone(i, lost, x);
    }
  }

  lemma NoteDropExact(dropped: DropMap, lost: seq<MarketEvent>, it: Item, i: Instrument)
    requires ExactAt(dropped, lost, i)
    ensures ExactAt(NoteDrop(dropped, it), lost + [it.ev], i)
  {
    if i in dropped {
      AccountGrows(dropped[i], i, lost, it.ev);
    } else if LostOf(i, it.ev) {
      AccountStarts(NoteDrop(dropped, it)[i], i, lost, it.ev);
    } else {
      SeqsOfSnoc(i, lost, it.ev);
    }
  }

  lemma {:induction false} NoSeqsMeansNone(i: Instrument, lost: seq<MarketEvent>, e: MarketEvent)
    requires e in lost && LostOf(i, e)
    ensures SeqsOf(i, lost) != []
  {
    if lost[0] != e {
      NoSeqsMeansNone(i, lost[1..], e);
    }
  }

  function Evictions(capacity: nat, pushes: nat): nat {
    if pushes <= Bound(capacity) then 0 else pushes - Bound(capacity)
  }

  lemma {:induction false} RingHoldsNewest(capacity: nat, items: seq<Item>)
    ensures var r := PushAll(Fresh(capacity), items);
      r.capacity == Bound(capacity) && r.buf == items[Evictions(capacity, |items|)..]
  {
    if items != [] {
      RingHoldsNewest(capacity, items[..|items| - 1]);
      SuffixSnoc(items, Evictions(capacity, |items| - 1));
    }
  }

  /** One push more: the oldest survivor, if any, joins the evicted. */
  lemma EvictsInOrder(capacity: nat, items: seq<Item>)
    requires items != []
    ensures var front := items[..|items| - 1];
      var d, d', k := PushAll(Fresh(capacity), front).dropped, PushAll(Fresh(capacity), items).dropped, Evictions(capacity, |front|);
      if Evictions(capacity, |items|) == k then d' == d && items[..k] == front[..k]
      else
        && Evictions(capacity, |items|) == k + 1 && k < |front| && items[..k + 1] == front[..k] + [front[k]]
        && d' == NoteDrop(d, front[k])
  {
    RingHoldsNewest(capacity, items[..|items| - 1]);
  }

  lemma ExactDropsGrow(d: DropMap, lost: seq<MarketEvent>, it: Item)
    requires ExactDrops(d, lost)
    ensures ExactDrops(NoteDrop(d, it), lost + [it.ev])
  {
    forall i
      ensures ExactAt(NoteDrop(d, it), lost + [it.ev], i)
    {
      NoteDropExact(d, lost, it, i);
    }
  }

  lemma {:induction false} RingAccountsForEvicted(capacity: nat, items: seq<Item>)
    ensures ExactDrops(PushAll(Fresh(capacity), items).dropped, EventsOf(items[..Evictions(capacity, |items|)]))
  {
    if items == [] {
      assert EventsOf(items[..0]) == [];
    } else {
      var front := items[..|items| - 1];
      var k := Evictions(capacity, |front|);
      RingAccountsForEvicted(capacity, front);
      EvictsInOrder(capacity, items);
      if Evictions(capacity, |items|) != k {
        ExactDropsGrow(PushAll(Fresh(capacity), front).dropped, EventsOf(front[..k]), front[k]);
        EventsOfConcat(front[..k], [front[k]]);
        assert EventsOf([front[k]]) == [front[k].ev];
      }
    }
  }

  /** After any pushes the ring holds exactly the newest `max(capacity, 1)` in
      arrival order, and its dropped map is the exact account of all others. */
  lemma RingHoldsNewestAndAccountsForRest(capacity: nat, items: seq<Item>)
    ensures var r, k := PushAll(Fresh(capacity), items), Evictions(capacity, |items|);
      && r.buf == items[k..] && |r.buf| <= Bound(capacity)
      && ExactDrops(r.dropped, EventsOf(items[..k]))
  {
    RingHoldsNewest(capacity, items);
    RingAccountsForEvicted(capacity, items);
  }

  /** Who reports a loss: a lost gap's own provider, else the subscription's. */
  function ReporterOf(it: Item): string {
    match it.ev
    case Control(_, _, _, Gap(provider, _, _)) => provider
    case _ => it.provider
  }

  function FirstLost(i: Instrument, lost: seq<Item>): Option<Item> {
    if lost == [] then None
    else if LostOf(i, lost[0].ev) then Some(lost[0])
    else FirstLost(i, lost[1..])
  }

  lemma {:induction false} FirstLostSnoc(i: Instrument, lost: seq<Item>, it: Item)
    ensures FirstLost(i, lost + [it]) ==
      if FirstLost(i, lost).Some? then FirstLost(i, lost) else if LostOf(i, it.ev) then Some(it) else None
  {
    if lost == [] {
      assert (lost + [it])[1..] == [];
    } else {
      assert (lost + [it])[1..] == lost[1..] + [it];
      FirstLostSnoc(i, lost[1..], it);
    }
  }

  predicate ReportedBy(d: DropMap, i: Instrument, first: Option<Item>) {
    && (i in d <==> first.Some?)
    && (i in d ==> d[i].provider == ReporterOf(first.value) && d[i].firstSeq == first.value.ev.seqNo)
  }

  lemma NoteDropReports(d: DropMap, i: Instrument, lost: seq<Item>, it: Item)
    requires ReportedBy(d, i, FirstLost(i, lost))
    ensures ReportedBy(NoteDrop(d, it), i, FirstLost(i, lost + [it]))
  {
    FirstLostSnoc(i, lost, it);
  }

  /** The provider a loss is reported under is that of the first event lost. */
  lemma {:induction false} LossIsReportedByItsFirst(capacity: nat, items: seq<Item>, i: Instrument)
    ensures ReportedBy(PushAll(Fresh(capacity), items).dropped, i, FirstLost(i, items[..Evictions(capacity, |items|)]))
  {
    if items != [] {
      var front := items[..|items| - 1];
      var k := Evictions(capacity, |front|);
      LossIsReportedByItsFirst(capacity, front, i);
      EvictsInOrder(capacity, items);
      if Evictions(capacity, |items|) != k {
        NoteDropReports(PushAll(Fresh(capacity), front).dropped, i, front[..k], front[k]);
      }
    }
  }

  // ------------------------------------------------------------ flush, shape

  lemma {:induction false} GapItemsSeqs(i: Instrument, gaps: seq<InstrumentGap>)
    requires DistinctInstruments(gaps)
    ensures |SeqsOf(i, EventsOf(GapItems(gaps)))| <= 1
    ensures i !in InstrumentsIn(gaps) ==> SeqsOf(i, EventsOf(GapItems(gaps))) == []
    ensures forall n | 0 <= n < |gaps| && gaps[n].instrument == i ::
      SeqsOf(i, EventsOf(GapItems(gaps))) == [gaps[n].firstSeq as int]
  {
    if gaps != [] {
      assert EventsOf(GapItems(gaps))[1..] == EventsOf(GapItems(gaps[1..]));
      assert forall n | 0 <= n < |gaps[1..]| :: gaps[1..][n] == gaps[n + 1];
      GapItemsSeqs(i, gaps[1..]);
      if gaps[0].instrument == i {
        assert i !in InstrumentsIn(gaps[1..]);
      } else if i in InstrumentsIn(gaps[1..]) {
        var n :| 0 <= n < |gaps[1..]| && gaps[1..][n].instrument == i;
        assert gaps[n + 1].instrument == i;
      }
    }
  }

  /** The gaps of a flush, one by one. */
  lemma FlushedGap(dropped: DropMap, gaps: seq<InstrumentGap>, n: nat)
    requires FlushOrder(dropped, gaps) && n < |gaps|
    ensures var g, i := gaps[n].ToItem().ev, gaps[n].instrument;
      && IsGap(g) && InstrumentOf(g) == i && i in dropped
      && g == GapEvent(dropped[i].firstSeq, i, dropped[i].span, dropped[i].provider)
  {
    assert Reports(gaps[n], dropped);
  }

  lemma FlushSeqs(r: Ring, gaps: seq<InstrumentGap>, i: Instrument)
    requires FlushOrder(r.dropped, gaps)
    ensures SeqsOf(i, EventsOf(GapItems(gaps) + r.buf))
         == (if i in r.dropped then [r.dropped[i].firstSeq as int] else []) + SeqsOf(i, EventsOf(r.buf))
  {
    EventsOfConcat(GapItems(gaps), r.buf);
    SeqsOfConcat(i, EventsOf(GapItems(gaps)), EventsOf(r.buf));
    GapItemsSeqs(i, gaps);
    if i in r.dropped {
      assert i in InstrumentsIn(gaps);
      var n :| 0 <= n < |gaps| && gaps[n].instrument == i;
      assert Reports(gaps[n], r.dropped);
    }
  }

  lemma FlushParts(r: Ring, gaps: seq<InstrumentGap>)
    ensures var out := EventsOf(GapItems(gaps) + r.buf);
      out[|gaps|..] == EventsOf(r.buf) && forall n | 0 <= n < |gaps| :: out[n] == gaps[n].ToItem().ev
  {
    EventsOfConcat(GapItems(gaps), r.buf);
  }

  /** A flush synthesises, for each instrument, at most one gap, only when that
      instrument lost something: its recorded span under its first-evicted `seq`,
      ahead of all survivors, which follow unchanged. */
  lemma FlushReportsEachInstrumentOnce(r: Ring, gaps: seq<InstrumentGap>, i: Instrument)
    requires FlushOrder(r.dropped, gaps)
    ensures var out := EventsOf(GapItems(gaps) + r.buf);
      && out[|gaps|..] == EventsOf(r.buf)
      && (forall n | 0 <= n < |gaps| :: IsGap(out[n]))
      && (forall n | 0 <= n < |gaps| && InstrumentOf(out[n]) == i ::
            i in r.dropped && out[n] == GapEvent(r.dropped[i].firstSeq, i, r.dropped[i].span, r.dropped[i].provider))
    ensures SeqsOf(i, EventsOf(GapItems(gaps) + r.buf))
         == (if i in r.dropped then [r.dropped[i].firstSeq as int] else []) + SeqsOf(i, EventsOf(r.buf))
  {
    FlushSeqs(r, gaps, i);
    FlushParts(r, gaps);
    forall n | 0 <= n < |gaps|
      ensures var g := gaps[n].ToItem().ev; IsGap(g) && (InstrumentOf(g) == i ==>
        i in r.dropped && g == GapEvent(r.dropped[i].firstSeq, i, r.dropped[i].span, r.dropped[i].provider))
    {
      FlushedGap(r.dropped, gaps, n);
    }
  }
}
