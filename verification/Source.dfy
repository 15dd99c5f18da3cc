/** The authoritative controller as a source: it stamps `seq` once per event,
    tees live data to the tap log, buffers live arrivals while a backfill runs
    and splices them in at the seam. */
module Sources {
  import opened Events

  // -------------------------------------------------- the backfill event ring

  /** Bounded FIFO; `dropped` is the one span over everything evicted. */
  datatype Ring = Ring(capacity: nat, buf: seq<MarketEvent>, dropped: Option<GapSpan>, droppedFirstSeq: Option<Seq>)

  function Fresh(capacity: nat): Ring {
    Ring(if capacity < 1 then 1 else capacity, [], None, None)
  }

  function NoteSpan(dropped: Option<GapSpan>, ev: MarketEvent): Option<GapSpan> {
    if !Accountable(ev) then dropped
    else if dropped.Some? then Some(Hull(dropped.value, SpanOf(ev)))
    else Some(SpanOf(ev))
  }

  function Push(r: Ring, ev: MarketEvent): Ring {
    if |r.buf| == r.capacity && r.buf != [] then
      var e := r.buf[0];
      Ring(r.capacity, r.buf[1..] + [ev], NoteSpan(r.dropped, e),
           if r.droppedFirstSeq.None? then Some(e.seqNo) else r.droppedFirstSeq)
    else r.(buf := r.buf + [ev])
  }

  function PushAll(r: Ring, evs: seq<MarketEvent>): Ring
    decreases |evs|
  {
    if evs == [] then r else Push(PushAll(r, evs[..|evs| - 1]), evs[|evs| - 1])
  }

  /** How many of the first `n` arrivals a ring of this capacity has evicted. */
  function Evicted(capacity: nat, n: nat): nat {
    var c := Fresh(capacity).capacity;
    if n <= c then 0 else n - c
  }

  /** `span` is the hull of the data events and gaps in `evs`. */
  ghost predicate IsHull(span: Option<GapSpan>, evs: seq<MarketEvent>) {
    match span
    case None => forall e | e in evs :: !Accountable(e)
    case Some(h) =>
      && (forall e | e in evs && Accountable(e) :: Within(SpanOf(e), h))
      && (exists e :: e in evs && Accountable(e) && SpanOf(e).fromTs == h.fromTs)
      && (exists e :: e in evs && Accountable(e) && SpanOf(e).toTs == h.toTs)
  }

  lemma HullGrows(span: Option<GapSpan>, evs: seq<MarketEvent>, ev: MarketEvent)
    requires IsHull(span, evs)
    ensures IsHull(NoteSpan(span, ev), evs + [ev])
  {
    var evs' := evs + [ev];
    assert evs'[|evs|] == ev;
    if span.Some? {
      var a :| a in evs && Accountable(a) && SpanOf(a).fromTs == span.value.fromTs;
      var b :| b in evs && Accountable(b) && SpanOf(b).toTs == span.value.toTs;
      assert a in evs' && b in evs';
    }
  }

  lemma PushShifts(r: Ring, ev: MarketEvent)
    requires r.capacity >= 1 && |r.buf| <= r.capacity
    ensures Push(r, ev).capacity == r.capacity
    ensures Push(r, ev).buf == (if |r.buf| == r.capacity then r.buf[1..] else r.buf) + [ev]
  {
  }

  lemma {:induction false} RingKeepsNewest(capacity: nat, evs: seq<MarketEvent>)
    ensures var r := PushAll(Fresh(capacity), evs);
      r.capacity == Fresh(capacity).capacity && r.buf == evs[Evicted(capacity, |evs|)..]
  {
    if evs != [] {
      var front := evs[..|evs| - 1];
      RingKeepsNewest(capacity, front);
      PushShifts(PushAll(Fresh(capacity), front), evs[|evs| - 1]);
      SuffixSnoc(evs, Evicted(capacity, |front|));
    }
  }

  /** One arrival more: the oldest survivor, if any, joins the evicted. */
  lemma EvictsInOrder(capacity: nat, evs: seq<MarketEvent>)
    requires evs != []
    ensures var front := evs[..|evs| - 1];
      var r, r', k := PushAll(Fresh(capacity), front), PushAll(Fresh(capacity), evs), Evicted(capacity, |front|);
      if Evicted(capacity, |evs|) == k
      then r'.dropped == r.dropped && r'.droppedFirstSeq == r.droppedFirstSeq && evs[..k] == front[..k]
      else
        && Evicted(capacity, |evs|) == k + 1 && k < |front| && evs[..k + 1] == front[..k] + [front[k]]
        && r'.dropped == NoteSpan(r.dropped, front[k])
        && r'.droppedFirstSeq == if r.droppedFirstSeq.None? then Some(front[k].seqNo) else r.droppedFirstSeq
  {
    RingKeepsNewest(capacity, evs[..|evs| - 1]);
  }

  lemma {:induction false} RingHull(capacity: nat, evs: seq<MarketEvent>)
    ensures IsHull(PushAll(Fresh(capacity), evs).dropped, evs[..Evicted(capacity, |evs|)])
  {
    if evs != [] {
      var front := evs[..|evs| - 1];
      var k := Evicted(capacity, |front|);
      RingHull(capacity, front);
      EvictsInOrder(capacity, evs);
      if Evicted(capacity, |evs|) != k {
        HullGrows(PushAll(Fresh(capacity), front).dropped, front[..k], front[k]);
      }
    }
  }

  lemma {:induction false} RingRemembersFirst(capacity: nat, evs: seq<MarketEvent>)
    ensures PushAll(Fresh(capacity), evs).droppedFirstSeq ==
      if Evicted(capacity, |evs|) == 0 then None else Some(evs[0].seqNo)
  {
    if evs != [] {
      RingRemembersFirst(capacity, evs[..|evs| - 1]);
      EvictsInOrder(capacity, evs);
    }
  }

  /** After any arrivals the ring holds the newest `max(capacity, 1)` in arrival
      order, its span is the hull of all the others, and it remembers the `seq` of
      the first of them. */
  lemma RingKeepsNewestAndHull(capacity: nat, evs: seq<MarketEvent>)
    ensures var r, k := PushAll(Fresh(capacity), evs), Evicted(capacity, |evs|);
      && r.buf == evs[k..] && IsHull(r.dropped, evs[..k])
      && r.droppedFirstSeq == if k == 0 then None else Some(evs[0].seqNo)
  {
    RingKeepsNewest(capacity, evs);
    RingHull(capacity, evs);
    RingRemembersFirst(capacity, evs);
  }

  // ------------------------------------------------------ stamp, tee, deliver

  /** What the controller has done so far: `out` is its canonical delivery
      order, `log` the tap log. `panicked` once the `seq` space ran out. */
  datatype Src = Src(
    nextSeq: nat,
    out: seq<MarketEvent>,
    log: seq<MarketEvent>,
    tap: bool,
    dataForwarded: bool,
    panicked: bool)

  const NewSource: Src := Src(0, [], [], false, false, false)

  predicate Exhausted(s: Src) {
    s.nextSeq + 1 >= U64_MAX
  }

  function Emit(s: Src, ev: MarketEvent): Src {
    if s.panicked || Exhausted(s) then s.(panicked := true)
    else s.(nextSeq := s.nextSeq + 1, out := s.out + [ev.(seqNo := s.nextSeq)])
  }

  function Forward(s: Src, ev: MarketEvent): Src {
    if s.panicked || Exhausted(s) then s.(panicked := true)
    else
      var ev' := ev.(seqNo := s.nextSeq);
      Src(s.nextSeq + 1, s.out + [ev'],
          if IsData(ev') && s.tap then s.log + [ev'] else s.log,
          s.tap, s.dataForwarded || IsData(ev'), false)
  }

  function ForwardAll(s: Src, evs: seq<MarketEvent>): Src
    decreases |evs|
  {
    if evs == [] then s else Forward(ForwardAll(s, evs[..|evs| - 1]), evs[|evs| - 1])
  }

  lemma ForwardAllSnoc(s: Src, evs: seq<MarketEvent>, n: nat)
    requires n < |evs|
    ensures ForwardAll(s, evs[..n + 1]) == Forward(ForwardAll(s, evs[..n]), evs[n])
  {
    assert evs[..n + 1][..n] == evs[..n];
  }

  lemma {:induction false} ForwardAllCons(s: Src, g: MarketEvent, evs: seq<MarketEvent>)
    ensures ForwardAll(s, [g] + evs) == ForwardAll(Forward(s, g), evs)
    decreases |evs|
  {
    if evs == [] {
      assert ([g] + evs)[..0] == [];
    } else {
      assert ([g] + evs)[..|evs|] == [g] + evs[..|evs| - 1];
      ForwardAllCons(s, g, evs[..|evs| - 1]);
    }
  }

  /** The unstamped gap control for this session's instrument. */
  function GapControl(provider: string, i: Instrument, span: GapSpan): MarketEvent {
    GapEvent(0, i, span, provider)
  }

  function SeamEvents(r: Ring, provider: string, i: Instrument): seq<MarketEvent> {
    (if r.dropped.Some? then [GapControl(provider, i, r.dropped.value)] else []) + r.buf
  }

  class Controller {
    const provider: string
    const instrument: Instrument
    var nextSeq: nat
    var out: seq<MarketEvent>
    var log: seq<MarketEvent>
    var tap: bool
    var dataForwarded: bool
    var panicked: bool

    function State(): Src
      reads this
    {
      Src(nextSeq, out, log, tap, dataForwarded, panicked)
    }

    constructor (provider: string, instrument: Instrument)
      ensures State() == NewSource && this.provider == provider && this.instrument == instrument
    {
      this.provider, this.instrument := provider, instrument;
      nextSeq, out, log := 0, [], [];
      tap, dataForwarded, panicked := false, false, false;
    }

    /** Assign the next `seq`; `None` is the panic on exhaustion. */
    method Stamp(ev: MarketEvent) returns (r: Option<MarketEvent>)
      modifies this`nextSeq, this`panicked
      ensures r == if old(panicked) || Exhausted(old(State())) then None else Some(ev.(seqNo := old(nextSeq)))
      ensures panicked == r.None?
      ensures nextSeq == if r.None? then old(nextSeq) else old(nextSeq) + 1
    {
      if panicked || nextSeq + 1 >= U64_MAX {
        panicked := true;
        return None;
      }
      r := Some(ev.(seqNo := nextSeq));
      nextSeq := nextSeq + 1;
    }

    method EmitEvent(ev: MarketEvent)
      modifies this
      ensures State() == Emit(old(State()), ev)
    {
      var stamped := Stamp(ev);
      if stamped.Some? {
        out := out + [stamped.value];
      }
    }

    /** Stamp, then tee, then deliver. */
    method ForwardEvent(ev: MarketEvent)
      modifies this
      ensures State() == Forward(old(State()), ev)
    {
      var stamped := Stamp(ev);
      if stamped.Some? {
        if IsData(stamped.value) {
          dataForwarded := true;
          if tap {
            log := log + [stamped.value];
          }
        }
        out := out + [stamped.value];
      }
    }

    method ForwardEach(evs: seq<MarketEvent>)
      modifies this
      ensures State() == ForwardAll(old(State()), evs)
    {
      for n := 0 to |evs|
        invariant State() == ForwardAll(old(State()), evs[..n])
      {
        ForwardAllSnoc(old(State()), evs, n);
        ForwardEvent(evs[n]);
      }
      assert evs[..|evs|] == evs;
    }

    /** The seam: one gap for what the ring evicted, then the survivors. */
    method FlushBackfillPending(ring: Ring)
      modifies this
      ensures State() == ForwardAll(old(State()), SeamEvents(ring, provider, instrument))
    {
      if ring.dropped.Some? {
        ForwardAllCons(State(), GapControl(provider, instrument, ring.dropped.value), ring.buf);
        ForwardEvent(GapControl(provider, instrument, ring.dropped.value));
      } else {
        assert [] + ring.buf == ring.buf;
      }
      ForwardEach(ring.buf);
    }
  }

  // -------------------------------------------------------------------- runs

  /** Steps of a live session, `select!` arm by `select!` arm. During a backfill
      the segments produce data (`SegmentData`) and controls (`SegmentControl`)
      while live arrivals are buffered; `Seam` ends it. */
  datatype Op =
    | SegmentData(ev: MarketEvent)
    | SegmentControl(ev: MarketEvent)
    | Arrival(ev: MarketEvent)
    | Seam
    | SetTap(on: bool)
    | Seed(ev: MarketEvent)

  datatype Session = Session(src: Src, pending: Option<Ring>, provider: string, instrument: Instrument)

  function Apply(s: Session, op: Op): Session {
    match op
    case SegmentData(ev) => if s.pending.Some? then s.(src := Emit(s.src, ev)) else s
    case SegmentControl(ev) => if s.pending.Some? then s.(src := Forward(s.src, ev)) else s
    case Arrival(ev) =>
      if s.pending.Some? then s.(pending := Some(Push(s.pending.value, ev))) else s.(src := Forward(s.src, ev))
    case Seam =>
      if s.pending.Some?
      then s.(src := ForwardAll(s.src, SeamEvents(s.pending.value, s.provider, s.instrument)), pending := None)
      else s
    case SetTap(on) => s.(src := s.src.(tap := on))
    case Seed(ev) =>
      if s.pending.None? && !s.src.dataForwarded then s.(src := Forward(s.src, ev)) else s
  }

  function Run(s: Session, ops: seq<Op>): Session
    decreases |ops|
  {
    if ops == [] then s else Apply(Run(s, ops[..|ops| - 1]), ops[|ops| - 1])
  }

  function Opened(backfill: bool, capacity: nat, tap: bool, provider: string, i: Instrument): Session {
    Session(NewSource.(tap := tap), if backfill then Some(Fresh(capacity)) else None, provider, i)
  }

  // --- seq is 0, 1, 2, ...

  predicate Contiguous(s: Src) {
    && s.nextSeq == |s.out| && s.nextSeq < U64_MAX
    && forall n | 0 <= n < |s.out| :: s.out[n].seqNo == n
  }

  lemma {:induction false} ForwardAllContiguous(s: Src, evs: seq<MarketEvent>)
    requires Contiguous(s)
    ensures Contiguous(ForwardAll(s, evs))
    decreases |evs|
  {
    if evs != [] {
      ForwardAllContiguous(s, evs[..|evs| - 1]);
    }
  }

  /** In every run, whatever is emitted from wherever, the source stream's `seq`
      is exactly 0, 1, 2, ... and never the reserved sentinel. */
  lemma {:induction false} SourceSeqIsContiguous(s: Session, ops: seq<Op>)
    requires Contiguous(s.src)
    ensures Contiguous(Run(s, ops).src)
    ensures forall n | 0 <= n < |Run(s, ops).src.out| :: Run(s, ops).src.out[n].seqNo != SYNTHETIC
    decreases |ops|
  {
    if ops != [] {
      var t, op := Run(s, ops[..|ops| - 1]), ops[|ops| - 1];
      SourceSeqIsContiguous(s, ops[..|ops| - 1]);
      ApplyContiguous(t, op);
    }
  }

  lemma ApplyContiguous(s: Session, op: Op)
    requires Contiguous(s.src)
    ensures Contiguous(Apply(s, op).src)
  {
    if op.Seam? && s.pending.Some? {
      ForwardAllContiguous(s.src, SeamEvents(s.pending.value, s.provider, s.instrument));
    }
  }

  /** The counter gives up one value earlier than the reservation needs: the
      last `seq` it can hand out is two below the sentinel. */
  lemma LastStampIsTwoBelowSentinel(s: Src, ev: MarketEvent)
    requires Contiguous(s) && !s.panicked
    ensures Emit(s, ev).panicked <==> s.nextSeq == SYNTHETIC - 1
    ensures !Emit(s, ev).panicked ==> Emit(s, ev).out[s.nextSeq].seqNo <= SYNTHETIC - 2
  {
  }

  // --- the seam and the tap log

  function Stamped(n: nat, evs: seq<MarketEvent>): (r: seq<MarketEvent>)
    requires n + |evs| <= U64_MAX
    ensures |r| == |evs|
  {
    seq(|evs|, k requires 0 <= k < |evs| => evs[k].(seqNo := n + k))
  }

  function DataOnly(evs: seq<MarketEvent>): seq<MarketEvent> {
    if evs == [] then []
    else DataOnly(evs[..|evs| - 1]) + (if IsData(evs[|evs| - 1]) then [evs[|evs| - 1]] else [])
  }

  lemma StampedSnoc(n: nat, evs: seq<MarketEvent>, e: MarketEvent)
    requires n + |evs| + 1 <= U64_MAX
    ensures var e' := e.(seqNo := n + |evs|);
      && Stamped(n, evs + [e]) == Stamped(n, evs) + [e']
      && DataOnly(Stamped(n, evs + [e])) == DataOnly(Stamped(n, evs)) + (if IsData(e') then [e'] else [])
  {
    var all := Stamped(n, evs + [e]);
    assert all[..|all| - 1] == Stamped(n, evs);
  }

  function SegmentAt(op: Op): seq<MarketEvent> {
    if op.SegmentData? || op.SegmentControl? then [op.ev] else []
  }

  function ArrivalAt(op: Op): seq<MarketEvent> {
    if op.Arrival? then [op.ev] else []
  }

  /** What the segments produced, and what arrived live, among the first ops. */
  function Segments(ops: seq<Op>): seq<MarketEvent> {
    if ops == [] then []
    else Segments(ops[..|ops| - 1]) + SegmentAt(ops[|ops| - 1])
  }

  function Arrivals(ops: seq<Op>): seq<MarketEvent> {
    if ops == [] then []
    else Arrivals(ops[..|ops| - 1]) + ArrivalAt(ops[|ops| - 1])
  }

  predicate Ordinary(op: Op) {
    !op.Seam? && !op.Seed? && (op.SegmentControl? ==> !IsData(op.ev))
  }

  predicate NoSeam(ops: seq<Op>) {
    forall op | op in ops :: Ordinary(op)
  }

  predicate TapStaysOn(ops: seq<Op>) {
    forall op | op in ops :: op.SetTap? ==> op.on
  }

  /** Mid-backfill: the segments' output is out, stamped; the arrivals are in
      the ring; nothing has been logged. */
  predicate Buffering(s: Session, capacity: nat, segments: seq<MarketEvent>, arrivals: seq<MarketEvent>) {
    && s.pending == Some(PushAll(Fresh(capacity), arrivals))
    && !s.src.panicked && s.src.log == []
    && s.src.nextSeq == |segments| < U64_MAX && s.src.out == Stamped(0, segments)
  }

  lemma BufferingStep(s: Session, op: Op, capacity: nat, segments: seq<MarketEvent>, arrivals: seq<MarketEvent>)
    requires Buffering(s, capacity, segments, arrivals) && Ordinary(op) && |segments + SegmentAt(op)| < U64_MAX - 1
    ensures Buffering(Apply(s, op), capacity, segments + SegmentAt(op), arrivals + ArrivalAt(op))
    ensures Apply(s, op).src.tap == if op.SetTap? then op.on else s.src.tap
  {
    if op.Arrival? {
      assert (arrivals + [op.ev])[..|arrivals|] == arrivals;
      assert segments + [] == segments;
    } else {
      assert arrivals + [] == arrivals;
      if SegmentAt(op) == [] {
        assert segments + [] == segments;
      } else {
        StampedSnoc(0, segments, op.ev);
      }
    }
  }

  lemma {:induction false} DuringBackfill(capacity: nat, tap: bool, provider: string, i: Instrument, ops: seq<Op>)
    requires NoSeam(ops) && |Segments(ops)| < U64_MAX - 1
    ensures var s := Run(Opened(true, capacity, tap, provider, i), ops);
      && Buffering(s, capacity, Segments(ops), Arrivals(ops))
      && s.provider == provider && s.instrument == i
      && (tap && TapStaysOn(ops) ==> s.src.tap)
    decreases |ops|
  {
    if ops != [] {
      var front, op := ops[..|ops| - 1], ops[|ops| - 1];
      assert forall o | o in front :: o in ops;
      assert op in ops;
      DuringBackfill(capacity, tap, provider, i, front);
      BufferingStep(Run(Opened(true, capacity, tap, provider, i), front), op, capacity, Segments(front), Arrivals(front));
    }
  }

  /** `evs` have been forwarded since `base`, with the tap on if `tapped`. */
  predicate Extended(base: Src, t: Src, tapped: bool, evs: seq<MarketEvent>) {
    && !t.panicked && t.nextSeq == |t.out| < U64_MAX && base.nextSeq + |evs| == t.nextSeq
    && t.out == base.out + Stamped(base.nextSeq, evs)
    && (tapped ==> t.tap && t.log == base.log + DataOnly(Stamped(base.nextSeq, evs)))
  }

  lemma ForwardEffect(t: Src, e: MarketEvent)
    requires !t.panicked && t.nextSeq + 1 < U64_MAX
    ensures var t', e' := Forward(t, e), e.(seqNo := t.nextSeq);
      && !t'.panicked && t'.nextSeq == t.nextSeq + 1 && t'.tap == t.tap && t'.out == t.out + [e']
      && (t.tap ==> t'.log == t.log + if IsData(e') then [e'] else [])
  {
  }

  lemma ExtendedStep(base: Src, t: Src, tapped: bool, evs: seq<MarketEvent>, e: MarketEvent)
    requires Extended(base, t, tapped, evs) && base.nextSeq + |evs| + 1 < U64_MAX - 1
    ensures Extended(base, Forward(t, e), tapped, evs + [e])
  {
    ForwardEffect(t, e);
    StampedSnoc(base.nextSeq, evs, e);
    var e' := e.(seqNo := t.nextSeq);
    ConcatAssoc(base.out, Stamped(base.nextSeq, evs), [e']);
    ConcatAssoc(base.log, DataOnly(Stamped(base.nextSeq, evs)), if IsData(e') then [e'] else []);
  }

  lemma {:induction false} ForwardAllEffect(s: Src, evs: seq<MarketEvent>)
    requires !s.panicked && s.nextSeq == |s.out| && s.nextSeq + |evs| < U64_MAX - 1
    ensures Extended(s, ForwardAll(s, evs), s.tap, evs)
    decreases |evs|
  {
    if evs == [] {
      assert Stamped(s.nextSeq, evs) == [];
    } else {
      var front := evs[..|evs| - 1];
      ForwardAllEffect(s, front);
      ExtendedStep(s, ForwardAll(s, front), s.tap, front, evs[|evs| - 1]);
      assert evs == front + [evs[|evs| - 1]];
    }
  }

  lemma TailingStep(s: Session, op: Op, base: Src, tapped: bool, arrivals: seq<MarketEvent>)
    requires s.pending.None? && Extended(base, s.src, tapped, arrivals)
    requires Ordinary(op) && base.nextSeq + |arrivals + ArrivalAt(op)| < U64_MAX - 1
    ensures Apply(s, op).pending.None?
    ensures Extended(base, Apply(s, op).src, tapped && (op.SetTap? ==> op.on), arrivals + ArrivalAt(op))
  {
    if op.Arrival? {
      ExtendedStep(base, s.src, tapped, arrivals, op.ev);
    } else {
      assert arrivals + [] == arrivals;
    }
  }

  lemma {:induction false} AfterSeam(s: Session, ops: seq<Op>)
    requires NoSeam(ops) && s.pending.None? && !s.src.panicked && s.src.nextSeq == |s.src.out|
    requires s.src.nextSeq + |Arrivals(ops)| < U64_MAX - 1
    ensures Run(s, ops).pending.None?
    ensures Extended(s.src, Run(s, ops).src, s.src.tap && TapStaysOn(ops), Arrivals(ops))
    decreases |ops|
  {
    if ops != [] {
      var front, op := ops[..|ops| - 1], ops[|ops| - 1];
      assert forall o | o in front :: o in ops;
      assert op in ops;
      AfterSeam(s, front);
      TailingStep(Run(s, front), op, s.src, s.src.tap && TapStaysOn(front), Arrivals(front));
      assert TapStaysOn(ops) ==> TapStaysOn(front);
    } else {
      assert Stamped(s.src.nextSeq, Arrivals(ops)) == [];
    }
  }

  /** What a whole backfilled session delivers, before stamping: the segments'
      output, at most one gap over the evicted arrivals, the newest buffered
      arrivals in arrival order, then the live tail. */
  function LiveTail(capacity: nat, provider: string, i: Instrument, during: seq<Op>, after: seq<Op>): seq<MarketEvent> {
    SeamEvents(PushAll(Fresh(capacity), Arrivals(during)), provider, i) + Arrivals(after)
  }

  lemma RunAppend(s: Session, a: seq<Op>, b: seq<Op>)
    ensures Run(s, a + b) == Run(Run(s, a), b)
    decreases |b|
  {
    if b == [] {
      assert a + b == a;
    } else {
      assert (a + b)[..|a + b| - 1] == a + b[..|b| - 1];
    }
  }

  lemma StampedConcat(n: nat, a: seq<MarketEvent>, b: seq<MarketEvent>)
    requires n + |a| + |b| <= U64_MAX
    ensures Stamped(n, a + b) == Stamped(n, a) + Stamped(n + |a|, b)
  {
  }

  lemma {:induction false} DataOnlyConcat(a: seq<MarketEvent>, b: seq<MarketEvent>)
    ensures DataOnly(a + b) == DataOnly(a) + DataOnly(b)
    decreases |b|
  {
    if b == [] {
      assert a + b == a;
    } else {
      assert (a + b)[..|a + b| - 1] == a + b[..|b| - 1];
      DataOnlyConcat(a, b[..|b| - 1]);
    }
  }

  lemma AtSeam(capacity: nat, tap: bool, provider: string, i: Instrument, during: seq<Op>)
    requires NoSeam(during)
    requires var seam := SeamEvents(PushAll(Fresh(capacity), Arrivals(during)), provider, i);
      |Segments(during)| + |seam| < U64_MAX - 1
    ensures var t := Run(Opened(true, capacity, tap, provider, i), during + [Seam]);
      var seam := SeamEvents(PushAll(Fresh(capacity), Arrivals(during)), provider, i);
      && t.pending.None? && !t.src.panicked && t.src.nextSeq == |t.src.out| == |Segments(during)| + |seam|
      && t.src.out == Stamped(0, Segments(during)) + Stamped(|Segments(during)|, seam)
      && (tap && TapStaysOn(during) ==> t.src.tap && t.src.log == DataOnly(Stamped(|Segments(during)|, seam)))
  {
    DuringBackfill(capacity, tap, provider, i, during);
    var s := Run(Opened(true, capacity, tap, provider, i), during);
    assert (during + [Seam])[..|during|] == during;
    var seam := SeamEvents(s.pending.value, provider, i);
    ForwardAllEffect(s.src, seam);
    assert [] + DataOnly(Stamped(|Segments(during)|, seam)) == DataOnly(Stamped(|Segments(during)|, seam));
  }

  /** Seam and tap log: the delivered stream is the segments' output followed by
      the live tail, stamped 0, 1, 2, ...; with the tap on throughout, the log is
      exactly the data events of the live tail with the `seq` they were
      delivered with, and never backfill data. */
  lemma SeamOrderAndTapLog(
    capacity: nat, tap: bool, provider: string, i: Instrument, during: seq<Op>, after: seq<Op>)
    requires NoSeam(during) && NoSeam(after)
    requires |Segments(during)| + |LiveTail(capacity, provider, i, during, after)| < U64_MAX - 1
    ensures var t := Run(Opened(true, capacity, tap, provider, i), during + [Seam] + after);
      var tail := LiveTail(capacity, provider, i, during, after);
      && t.src.out == Stamped(0, Segments(during) + tail)
      && (tap && TapStaysOn(during) && TapStaysOn(after) ==> t.src.log == DataOnly(Stamped(|Segments(during)|, tail)))
  {
    var start, ring := Opened(true, capacity, tap, provider, i), PushAll(Fresh(capacity), Arrivals(during));
    var seam, seg, live := SeamEvents(ring, provider, i), Segments(during), Arrivals(after);
    AtSeam(capacity, tap, provider, i, during);
    RunAppend(start, during + [Seam], after);
    var base := Run(start, during + [Seam]);
    AfterSeam(base, after);
    TailAfterSeam(base.src, Run(base, after).src, base.src.tap && TapStaysOn(after), tap && TapStaysOn(during), seg, seam, live);
  }

  /** What the seam left, extended by the live tail. */
  lemma TailAfterSeam(
    base: Src, t: Src, tapped: bool, tappedBefore: bool, seg: seq<MarketEvent>, seam: seq<MarketEvent>, live: seq<MarketEvent>)
    requires Extended(base, t, tapped, live) && base.nextSeq == |seg| + |seam|
    requires base.out == Stamped(0, seg) + Stamped(|seg|, seam)
    requires tappedBefore ==> base.log == DataOnly(Stamped(|seg|, seam))
    ensures |seg| + |seam + live| <= U64_MAX && t.out == Stamped(0, seg + (seam + live))
    ensures tapped && tappedBefore ==> t.log == DataOnly(Stamped(|seg|, seam + live))
  {
    TailStamps(seg, seam, live);
  }

  lemma TailStamps(seg: seq<MarketEvent>, seam: seq<MarketEvent>, live: seq<MarketEvent>)
    requires |seg| + |seam| + |live| <= U64_MAX
    ensures Stamped(0, seg) + Stamped(|seg|, seam) + Stamped(|seg| + |seam|, live) == Stamped(0, seg + (seam + live))
    ensures DataOnly(Stamped(|seg|, seam)) + DataOnly(Stamped(|seg| + |seam|, live)) == DataOnly(Stamped(|seg|, seam + live))
  {
    StampedConcat(|seg|, seam, live);
    StampedConcat(0, seg, seam + live);
    DataOnlyConcat(Stamped(|seg|, seam), Stamped(|seg| + |seam|, live));
  }

  /** The seam part of the live tail, declared: the gap is there exactly when an
      evicted arrival was data or a gap, and spans their hull. */
  lemma SeamIsHullThenNewest(capacity: nat, provider: string, i: Instrument, arrivals: seq<MarketEvent>)
    ensures var k := Evicted(capacity, |arrivals|);
      var seam := SeamEvents(PushAll(Fresh(capacity), arrivals), provider, i);
      exists span :: IsHull(span, arrivals[..k])
        && seam == (if span.Some? then [GapEvent(0, i, span.value, provider)] else []) + arrivals[k..]
  {
    RingKeepsNewestAndHull(capacity, arrivals);
    var r := PushAll(Fresh(capacity), arrivals);
    assert IsHull(r.dropped, arrivals[..Evicted(capacity, |arrivals|)]);
  }

  // --- the tap, switched on and off

  function AtSeq(ev: MarketEvent, n: Seq): MarketEvent {
    ev.(seqNo := n)
  }

  /** The tap is as it was last set. */
  function TapAfter(on: bool, ops: seq<Op>): bool {
    if ops == [] then on
    else if ops[|ops| - 1].SetTap? then ops[|ops| - 1].on
    else TapAfter(on, ops[..|ops| - 1])
  }

  /** The data that arrived while the tap was on, with the `seq` it was delivered
      with. */
  function Tapped(on: bool, n: nat, ops: seq<Op>): seq<MarketEvent>
    requires n + |Arrivals(ops)| <= U64_MAX
  {
    if ops == [] then []
    else
      var front, op := ops[..|ops| - 1], ops[|ops| - 1];
      Tapped(on, n, front)
      + if op.Arrival? && IsData(op.ev) && TapAfter(on, front) then [AtSeq(op.ev, n + |Arrivals(front)|)] else []
  }

  predicate Logging(s: Session, base: Src, on: bool, ops: seq<Op>) {
    && s.pending.None? && !s.src.panicked && s.src.tap == TapAfter(on, ops)
    && s.src.nextSeq == base.nextSeq + |Arrivals(ops)| < U64_MAX
    && s.src.log == base.log + Tapped(on, base.nextSeq, ops)
  }

  lemma LoggingArrival(s: Session, ev: MarketEvent)
    requires s.pending.None? && !s.src.panicked && s.src.nextSeq + 1 < U64_MAX
    ensures var t := Apply(s, Arrival(ev)).src;
      && !t.panicked && t.tap == s.src.tap && t.nextSeq == s.src.nextSeq + 1
      && t.log == s.src.log + if IsData(ev) && s.src.tap then [AtSeq(ev, s.src.nextSeq)] else []
  {
  }

  lemma LoggingArrivalStep(s: Session, base: Src, on: bool, ops: seq<Op>)
    requires ops != [] && Logging(s, base, on, ops[..|ops| - 1]) && ops[|ops| - 1].Arrival?
    requires base.nextSeq + |Arrivals(ops)| < U64_MAX - 1
    ensures Logging(Apply(s, ops[|ops| - 1]), base, on, ops)
  {
    var front, ev := ops[..|ops| - 1], ops[|ops| - 1].ev;
    var more := if IsData(ev) && s.src.tap then [AtSeq(ev, s.src.nextSeq)] else [];
    assert Arrivals(ops) == Arrivals(front) + [ev];
    assert Tapped(on, base.nextSeq, ops) == Tapped(on, base.nextSeq, front) + more;
    LoggingArrival(s, ev);
    ConcatAssoc(base.log, Tapped(on, base.nextSeq, front), more);
  }

  lemma LoggingQuietStep(s: Session, base: Src, on: bool, ops: seq<Op>)
    requires ops != [] && Logging(s, base, on, ops[..|ops| - 1]) && Ordinary(ops[|ops| - 1]) && !ops[|ops| - 1].Arrival?
    requires base.nextSeq + |Arrivals(ops)| < U64_MAX - 1
    ensures Logging(Apply(s, ops[|ops| - 1]), base, on, ops)
  {
    var front := ops[..|ops| - 1];
    assert Arrivals(ops) == Arrivals(front) + [] == Arrivals(front);
    assert Tapped(on, base.nextSeq, ops) == Tapped(on, base.nextSeq, front) + [];
  }

  /** However the tap is switched during the live tail, the log grows by exactly
      the data that arrived while it was on. */
  lemma {:induction false} LiveLogIsWhatArrivedWhileTapped(s: Session, ops: seq<Op>)
    requires NoSeam(ops) && s.pending.None? && !s.src.panicked && s.src.nextSeq + |Arrivals(ops)| < U64_MAX - 1
    ensures Logging(Run(s, ops), s.src, s.src.tap, ops)
    decreases |ops|
  {
    if ops == [] {
      assert s.src.log + [] == s.src.log;
    } else {
      assert forall o | o in ops[..|ops| - 1] :: o in ops;
      assert ops[|ops| - 1] in ops;
      LiveLogIsWhatArrivedWhileTapped(s, ops[..|ops| - 1]);
      if ops[|ops| - 1].Arrival? {
        LoggingArrivalStep(Run(s, ops[..|ops| - 1]), s.src, s.src.tap, ops);
      } else {
        LoggingQuietStep(Run(s, ops[..|ops| - 1]), s.src, s.src.tap, ops);
      }
    }
  }

  lemma {:induction false} ForwardAllUntapped(s: Src, evs: seq<MarketEvent>)
    requires !s.tap
    ensures ForwardAll(s, evs).log == s.log && !ForwardAll(s, evs).tap
    decreases |evs|
  {
    if evs != [] {
      ForwardAllUntapped(s, evs[..|evs| - 1]);
    }
  }

  /** A session that is never tapped logs nothing, whatever it goes through. */
  lemma {:induction false} UntappedSessionLogsNothing(s: Session, ops: seq<Op>)
    requires !s.src.tap && SetTap(true) !in ops
    ensures Run(s, ops).src.log == s.src.log && !Run(s, ops).src.tap
    decreases |ops|
  {
    if ops != [] {
      var t, op := Run(s, ops[..|ops| - 1]), ops[|ops| - 1];
      UntappedSessionLogsNothing(s, ops[..|ops| - 1]);
      assert op != SetTap(true);
      if op.Seam? && t.pending.Some? {
        ForwardAllUntapped(t.src, SeamEvents(t.pending.value, t.provider, t.instrument));
      }
    }
  }

  // --- the latest-value seed

  predicate HasData(evs: seq<MarketEvent>) {
    exists e :: e in evs && IsData(e)
  }

  lemma {:induction false} DataForwardedIsExact(tap: bool, provider: string, i: Instrument, ops: seq<Op>)
    ensures var s := Run(Opened(false, 1, tap, provider, i), ops);
      s.pending.None? && (s.src.dataForwarded <==> HasData(s.src.out))
    decreases |ops|
  {
    if ops != [] {
      var t, op := Run(Opened(false, 1, tap, provider, i), ops[..|ops| - 1]), ops[|ops| - 1];
      DataForwardedIsExact(tap, provider, i, ops[..|ops| - 1]);
      var t' := Apply(t, op);
      if t'.src.out != t.src.out {
        var last := t'.src.out[|t.src.out|];
        assert t'.src.out == t.src.out + [last];
        assert IsData(last) ==> last in t'.src.out;
        assert forall e | e in t.src.out :: e in t'.src.out;
      }
    }
  }

  /** A pure-live session delivers the latest-value seed only while no data has
      been delivered at all: a live value that wins the race discards it. */
  lemma SeedOnlyBeforeAnyData(tap: bool, provider: string, i: Instrument, ops: seq<Op>, seed: MarketEvent)
    ensures var s := Run(Opened(false, 1, tap, provider, i), ops);
      if HasData(s.src.out) then Apply(s, Seed(seed)) == s
      else !s.src.panicked && !Exhausted(s.src) ==> Apply(s, Seed(seed)).src.out == s.src.out + [seed.(seqNo := s.src.nextSeq)]
  {
    DataForwardedIsExact(tap, provider, i, ops);
    SourceSeqIsContiguous(Opened(false, 1, tap, provider, i), ops);
  }
}
