/** The subscriber's hold buffer: it reconciles two services with no mutual
    delivery order, and must still reproduce each symbol's stream. */
module HoldBuffers {
  import opened Events
  import opened SymbolTables
  import opened Payloads

  datatype Hold = Hold(resolver: Resolver, held: seq<DataPayload>)

  /** Reconstructed events, and the samples still held, in held order. */
  datatype Drained = Drained(out: seq<MarketEvent>, sent: seq<DataPayload>, held: seq<DataPayload>)

  function DrainOne(p: DataPayload, r: Resolver): Drained {
    Sort(p, FromPod(p, r))
  }

  function Sort(p: DataPayload, reading: FromPodResult): Drained {
    match reading
    case Event(ev) => Drained([ev], [p], [])
    case Unresolved(_) => Drained([], [], [p])
    case BadDiscriminant => Drained([], [], [])
  }

  /** `sent` are the samples behind `out`; malformed ones are dropped. */
  function Drain(held: seq<DataPayload>, r: Resolver): Drained {
    if held == [] then Drained([], [], [])
    else
      var front, last := Drain(held[..|held| - 1], r), DrainOne(held[|held| - 1], r);
      Drained(front.out + last.out, front.sent + last.sent, front.held + last.held)
  }

  datatype Input = Announced(a: Announcement) | Sample(p: DataPayload)

  /** One arrival on either service; a malformed announcement leaves everything
      as it was. */
  function Step(h: Hold, i: Input): (Hold, Drained) {
    match i
    case Announced(a) =>
      if !Decode(a.text).Ok? then (h, Drained([], [], h.held))
      else
        var r := Resolve(h.resolver, a);
        var d := Drain(h.held, r);
        (Hold(r, d.held), d)
    case Sample(p) =>
      var d := Drain(h.held + [p], h.resolver);
      (Hold(h.resolver, d.held), d)
  }

  class HoldBuffer {
    var resolver: Resolver
    var held: seq<DataPayload>

    function State(): Hold
      reads this
    {
      Hold(resolver, held)
    }

    constructor ()
      ensures State() == Hold(map[], [])
    {
      resolver, held := map[], [];
    }

    method ApplyAnnouncement(a: Announcement) returns (ok: bool, out: seq<MarketEvent>)
      modifies this
      ensures ok <==> Decode(a.text).Ok?
      ensures State() == Step(old(State()), Announced(a)).0 && out == Step(old(State()), Announced(a)).1.out
    {
      match Decode(a.text)
      case Ok(i) =>
        resolver := resolver[a.id := i];
        ok := true;
        out := DrainResolved();
      case _ =>
        ok, out := false, [];
    }

    method OfferSample(p: DataPayload) returns (out: seq<MarketEvent>)
      modifies this`held
      ensures State() == Step(old(State()), Sample(p)).0 && out == Step(old(State()), Sample(p)).1.out
    {
      held := held + [p];
      out := DrainResolved();
    }

    method DrainResolved() returns (out: seq<MarketEvent>)
      modifies this`held
      ensures out == Drain(old(held), resolver).out && held == Drain(old(held), resolver).held
    {
      out := [];
      var stillHeld := [];
      for n := 0 to |held|
        invariant held == old(held)
        invariant out == Drain(held[..n], resolver).out && stillHeld == Drain(held[..n], resolver).held
      {
        assert held[..n + 1][..n] == held[..n];
        match FromPod(held[n], resolver)
        case Event(ev) => out := out + [ev];
        case Unresolved(_) => stillHeld := stillHeld + [held[n]];
        case BadDiscriminant =>
      }
      assert held[..|held|] == held;
      held := stillHeld;
    }
  }

  // -------------------------------------------------------------------- runs

  /** A subscriber's life so far: buffer, reconstructed events with the samples
      behind them, and every sample received. */
  datatype Run = Run(hold: Hold, out: seq<MarketEvent>, sent: seq<DataPayload>, received: seq<DataPayload>)

  const Start: Run := Run(Hold(map[], []), [], [], [])

  function Advance(run: Run, i: Input): Run {
    var (h, d) := Step(run.hold, i);
    match i
    case Announced(a) =>
      if Decode(a.text).Ok? then Run(h, run.out + d.out, run.sent + d.sent, run.received) else run
    case Sample(p) => Run(h, run.out + d.out, run.sent + d.sent, run.received + [p])
  }

  function After(inputs: seq<Input>): Run {
    if inputs == [] then Start else Advance(After(inputs[..|inputs| - 1]), inputs[|inputs| - 1])
  }

  /** Announcements on the wire name what the publisher's table interned. */
  predicate TrueAnnouncements(inputs: seq<Input>, t: Table) {
    forall i | i in inputs && i.Announced? && Decode(i.a.text).Ok? ::
      i.a.id < |t.reverse| && Decode(i.a.text).instrument == t.reverse[i.a.id]
  }

  function Full(t: Table): Resolver {
    map id | 0 <= id < |t.reverse| :: t.reverse[id]
  }

  /** Reconstructable at all: by some resolver that knows its symbol. */
  predicate WellFormed(p: DataPayload) {
    FromPod(p, map[p.symbol := Instrument("", Equity, "")]).Event?
  }

  /** Samples are ordered per symbol; `SessionClosing` needs no symbol, is never
      held, and is ordered only among its own kind. */
  datatype Lane = OfSymbol(id: SymbolId) | Closing

  predicate IsClosing(p: DataPayload) {
    p.kind == CONTROL && p.controlTag == SESSION_CLOSING
  }

  function Keep(lane: Lane, p: DataPayload): seq<DataPayload> {
    match lane
    case OfSymbol(id) => if p.symbol == id && WellFormed(p) && !IsClosing(p) then [p] else []
    case Closing => if IsClosing(p) then [p] else []
  }

  predicate Resolvable(lane: Lane, r: Resolver) {
    lane.Closing? || lane.id in r
  }

  /** The well-formed samples of one lane, in order. */
  function OnLane(lane: Lane, ps: seq<DataPayload>): seq<DataPayload> {
    if ps == [] then []
    else OnLane(lane, ps[..|ps| - 1]) + Keep(lane, ps[|ps| - 1])
  }

  lemma {:induction false} OnLaneConcat(lane: Lane, a: seq<DataPayload>, b: seq<DataPayload>)
    ensures OnLane(lane, a + b) == OnLane(lane, a) + OnLane(lane, b)
    decreases |b|
  {
    if b == [] {
      assert a + b == a;
    } else {
      assert (a + b)[..|a + b| - 1] == a + b[..|b| - 1];
      OnLaneConcat(lane, a, b[..|b| - 1]);
      ConcatAssoc(OnLane(lane, a), OnLane(lane, b[..|b| - 1]), Keep(lane, b[|b| - 1]));
    }
  }

  lemma OnLaneOne(lane: Lane, p: DataPayload)
    ensures OnLane(lane, [p]) == Keep(lane, p)
  {
    assert [p][..0] == [];
  }

  predicate AllUnresolved(held: seq<DataPayload>, r: Resolver) {
    forall p | p in held :: FromPod(p, r) == Unresolved(p.symbol)
  }

  /** A sample resolves the same way under every resolver that knows its symbol
      as the table does. */
  lemma ResolvesAsTable(p: DataPayload, r: Resolver, t: Table)
    requires Agrees(r, t)
    ensures FromPod(p, r).Event? ==>
      FromPod(p, Full(t)) == FromPod(p, r) && WellFormed(p) && (IsClosing(p) || p.symbol in r)
    ensures FromPod(p, r).BadDiscriminant? ==> !WellFormed(p)
    ensures FromPod(p, r).Unresolved? ==> p.symbol !in r && FromPod(p, r).id == p.symbol && !IsClosing(p)
  {
  }

  lemma {:induction false} HeldIsUnresolved(held: seq<DataPayload>, r: Resolver, t: Table)
    requires Agrees(r, t)
    ensures AllUnresolved(Drain(held, r).held, r)
    decreases |held|
  {
    if held != [] {
      HeldIsUnresolved(held[..|held| - 1], r, t);
      ResolvesAsTable(held[|held| - 1], r, t);
    }
  }

  lemma {:induction false} UnresolvedIsOnNoKnownLane(held: seq<DataPayload>, r: Resolver, t: Table, lane: Lane)
    requires Agrees(r, t) && AllUnresolved(held, r) && Resolvable(lane, r)
    ensures OnLane(lane, held) == []
    decreases |held|
  {
    if held != [] {
      assert held[|held| - 1] in held;
      ResolvesAsTable(held[|held| - 1], r, t);
      UnresolvedIsOnNoKnownLane(held[..|held| - 1], r, t, lane);
    }
  }

  /** What one sample adds to either side, per symbol. */
  lemma SortSplits(p: DataPayload, reading: FromPodResult, known: bool, lane: Lane)
    requires reading.BadDiscriminant? ==> Keep(lane, p) == []
    requires reading.Event? && Keep(lane, p) != [] ==> known
    ensures var l := Sort(p, reading);
      && OnLane(lane, l.sent) + OnLane(lane, l.held) == Keep(lane, p)
      && (OnLane(lane, l.sent) == [] || (OnLane(lane, l.held) == [] && known))
  {
    OnLaneOne(lane, p);
    assert OnLane(lane, []) == [];
  }

  lemma DrainOneSplits(p: DataPayload, r: Resolver, t: Table, lane: Lane)
    requires Agrees(r, t)
    ensures var l := DrainOne(p, r);
      && OnLane(lane, l.sent) + OnLane(lane, l.held) == Keep(lane, p)
      && (OnLane(lane, l.sent) == [] || (OnLane(lane, l.held) == [] && Resolvable(lane, r)))
  {
    ResolvesAsTable(p, r, t);
    SortSplits(p, FromPod(p, r), Resolvable(lane, r), lane);
  }

  /** A drain keeps, per symbol, sent samples then held ones, in order. */
  lemma {:induction false} DrainSplits(held: seq<DataPayload>, r: Resolver, t: Table, lane: Lane)
    requires Agrees(r, t)
    ensures OnLane(lane, Drain(held, r).sent) + OnLane(lane, Drain(held, r).held) == OnLane(lane, held)
    decreases |held|
  {
    if held != [] {
      var front, p := held[..|held| - 1], held[|held| - 1];
      DrainSplits(front, r, t, lane);
      HeldIsUnresolved(front, r, t);
      if Resolvable(lane, r) {
        UnresolvedIsOnNoKnownLane(Drain(front, r).held, r, t, lane);
      }
      DrainOneSplits(p, r, t, lane);
      var f, l := Drain(front, r), DrainOne(p, r);
      OnLaneConcat(lane, f.sent, l.sent);
      OnLaneConcat(lane, f.held, l.held);
      Interleave(OnLane(lane, f.sent), OnLane(lane, f.held), OnLane(lane, l.sent), OnLane(lane, l.held));
    }
  }

  lemma Interleave(fs: seq<DataPayload>, fh: seq<DataPayload>, ls: seq<DataPayload>, lh: seq<DataPayload>)
    requires ls == [] || (lh == [] && fh == [])
    ensures (fs + ls) + (fh + lh) == (fs + fh) + (ls + lh)
  {
  }

  /** Every reconstructed event is the table's reading of its sample. */
  predicate Reads(out: seq<MarketEvent>, sent: seq<DataPayload>, t: Table) {
    |out| == |sent| && forall n | 0 <= n < |out| :: FromPod(sent[n], Full(t)) == Event(out[n])
  }

  lemma {:induction false} DrainReads(held: seq<DataPayload>, r: Resolver, t: Table)
    requires Agrees(r, t)
    ensures Reads(Drain(held, r).out, Drain(held, r).sent, t)
    decreases |held|
  {
    if held != [] {
      DrainReads(held[..|held| - 1], r, t);
      ResolvesAsTable(held[|held| - 1], r, t);
    }
  }

  // ------------------------------------------------------------- refinement

  ghost predicate Faithful(run: Run, t: Table) {
    && Agrees(run.hold.resolver, t)
    && AllUnresolved(run.hold.held, run.hold.resolver)
    && Reads(run.out, run.sent, t)
    && forall lane :: Balanced(run, lane)
  }

  predicate Balanced(run: Run, lane: Lane) {
    OnLane(lane, run.sent) + OnLane(lane, run.hold.held) == OnLane(lane, run.received)
  }

  /** Draining `queue`, which accounts for everything received but not yet sent,
      keeps every symbol's account balanced. */
  lemma DrainKeepsBalance(run: Run, queue: seq<DataPayload>, r: Resolver, received: seq<DataPayload>, t: Table, lane: Lane)
    requires Agrees(r, t) && OnLane(lane, run.sent) + OnLane(lane, queue) == OnLane(lane, received)
    ensures var d := Drain(queue, r);
      OnLane(lane, run.sent + d.sent) + OnLane(lane, d.held) == OnLane(lane, received)
  {
    var d := Drain(queue, r);
    DrainSplits(queue, r, t, lane);
    OnLaneConcat(lane, run.sent, d.sent);
    ConcatAssoc(OnLane(lane, run.sent), OnLane(lane, d.sent), OnLane(lane, d.held));
  }

  lemma DrainKeepsFaithful(run: Run, queue: seq<DataPayload>, r: Resolver, received: seq<DataPayload>, t: Table)
    requires Agrees(r, t) && Reads(run.out, run.sent, t)
    requires forall lane :: OnLane(lane, run.sent) + OnLane(lane, queue) == OnLane(lane, received)
    ensures var d := Drain(queue, r);
      Faithful(Run(Hold(r, d.held), run.out + d.out, run.sent + d.sent, received), t)
  {
    var d := Drain(queue, r);
    HeldIsUnresolved(queue, r, t);
    DrainReads(queue, r, t);
    var next := Run(Hold(r, d.held), run.out + d.out, run.sent + d.sent, received);
    forall lane
      ensures Balanced(next, lane)
    {
      DrainKeepsBalance(run, queue, r, received, t, lane);
    }
  }

  lemma SampleKeepsFaithful(run: Run, p: DataPayload, t: Table)
    requires Faithful(run, t)
    ensures Faithful(Advance(run, Sample(p)), t)
  {
    forall lane
      ensures OnLane(lane, run.sent) + OnLane(lane, run.hold.held + [p]) == OnLane(lane, run.received + [p])
    {
      assert Balanced(run, lane);
      OnLaneConcat(lane, run.hold.held, [p]);
      OnLaneConcat(lane, run.received, [p]);
      ConcatAssoc(OnLane(lane, run.sent), OnLane(lane, run.hold.held), OnLane(lane, [p]));
    }
    DrainKeepsFaithful(run, run.hold.held + [p], run.hold.resolver, run.received + [p], t);
  }

  lemma AnnouncementKeepsFaithful(run: Run, a: Announcement, t: Table)
    requires Faithful(run, t)
    requires Decode(a.text).Ok? ==> a.id < |t.reverse| && Decode(a.text).instrument == t.reverse[a.id]
    ensures Faithful(Advance(run, Announced(a)), t)
  {
    if Decode(a.text).Ok? {
      forall lane
        ensures OnLane(lane, run.sent) + OnLane(lane, run.hold.held) == OnLane(lane, run.received)
      {
        assert Balanced(run, lane);
      }
      DrainKeepsFaithful(run, run.hold.held, Resolve(run.hold.resolver, a), run.received, t);
    }
  }

  lemma {:induction false} RunIsFaithful(inputs: seq<Input>, t: Table)
    requires TrueAnnouncements(inputs, t)
    ensures Faithful(After(inputs), t)
    decreases |inputs|
  {
    if inputs != [] {
      var front, i := inputs[..|inputs| - 1], inputs[|inputs| - 1];
      assert i in inputs && forall j | j in front :: j in inputs;
      RunIsFaithful(front, t);
      match i
      case Announced(a) => AnnouncementKeepsFaithful(After(front), a, t);
      case Sample(p) => SampleKeepsFaithful(After(front), p, t);
    }
  }

  /** For every interleaving of the two services: each symbol's reconstructed
      samples followed by its held ones are the well-formed samples received for
      it, in order; held samples are exactly the unresolved ones; every received
      `SessionClosing` has been released, in order; and every reconstructed event
      is what the publisher's table says it is. */
  lemma HoldBufferReproducesEachSymbol(inputs: seq<Input>, t: Table, lane: Lane)
    requires TrueAnnouncements(inputs, t)
    ensures var run := After(inputs);
      && OnLane(lane, run.sent) + OnLane(lane, run.hold.held) == OnLane(lane, run.received)
      && (Resolvable(lane, run.hold.resolver) ==> OnLane(lane, run.sent) == OnLane(lane, run.received))
      && AllUnresolved(run.hold.held, run.hold.resolver)
      && Reads(run.out, run.sent, t)
  {
    RunIsFaithful(inputs, t);
    var run := After(inputs);
    assert Balanced(run, lane);
    if Resolvable(lane, run.hold.resolver) {
      UnresolvedIsOnNoKnownLane(run.hold.held, run.hold.resolver, t, lane);
    }
  }

  // -------------------------------------------------------- events and samples

  /** The events behind one lane's samples, in order. */
  function EventsFor(lane: Lane, evs: seq<MarketEvent>, ps: seq<DataPayload>): seq<MarketEvent>
    requires |evs| == |ps|
  {
    if evs == [] then []
    else
      EventsFor(lane, evs[..|evs| - 1], ps[..|ps| - 1])
      + if Keep(lane, ps[|ps| - 1]) == [] then [] else [evs[|evs| - 1]]
  }

  function ReadOne(p: DataPayload, t: Table): seq<MarketEvent> {
    var f := FromPod(p, Full(t));
    if f.Event? then [f.ev] else []
  }

  function ReadAll(ps: seq<DataPayload>, t: Table): seq<MarketEvent> {
    if ps == [] then [] else ReadAll(ps[..|ps| - 1], t) + ReadOne(ps[|ps| - 1], t)
  }

  lemma ReadAllSnoc(ps: seq<DataPayload>, k: seq<DataPayload>, t: Table)
    requires |k| <= 1
    ensures ReadAll(ps + k, t) == ReadAll(ps, t) + if k == [] then [] else ReadOne(k[0], t)
  {
    if k == [] {
      assert ps + k == ps;
    } else {
      assert (ps + k)[..|ps|] == ps;
    }
  }

  lemma {:induction false} EventsForAreReadings(lane: Lane, evs: seq<MarketEvent>, ps: seq<DataPayload>, t: Table)
    requires Reads(evs, ps, t)
    ensures EventsFor(lane, evs, ps) == ReadAll(OnLane(lane, ps), t)
    decreases |evs|
  {
    if evs != [] {
      EventsForAreReadings(lane, evs[..|evs| - 1], ps[..|ps| - 1], t);
      ReadAllSnoc(OnLane(lane, ps[..|ps| - 1]), Keep(lane, ps[|ps| - 1]), t);
    }
  }

  lemma SameReading(p: DataPayload, t: Table, last: Table)
    requires t.reverse <= last.reverse && FromPod(p, Full(t)).Event?
    ensures FromPod(p, Full(last)) == FromPod(p, Full(t))
  {
    forall id | id in Full(t)
      ensures id in Full(last) && Full(last)[id] == Full(t)[id]
    {
    }
  }

  lemma FullAgrees(t: Table)
    ensures Agrees(Full(t), t)
  {
  }
}
