/** All three loss accountants composed: from a live arrival at the source, through
    the backfill ring and the seam, the fan-out and the client's resume ring, to
    whatever the client holds. */
module SourceToClient {
  import opened Events
  import opened Pipeline
  import S = Sources

  /** `ev` as the source stamps it. */
  function Stamped(ev: MarketEvent, n: Seq): MarketEvent {
    ev.(seqNo := n)
  }

  /** `x` reports `e`, whatever `seq` the source gave it. */
  ghost predicate ReportsStamped(x: MarketEvent, e: MarketEvent) {
    exists n: Seq :: Accounts(x, Stamped(e, n))
  }

  /** The source has put out a report of `e`. */
  ghost predicate Emitted(out: seq<MarketEvent>, e: MarketEvent) {
    exists x :: x in out && ReportsStamped(x, e)
  }

  /** A backfill is still running, and `e` waits in its ring or is recorded there
      as evicted. */
  predicate Buffered(s: S.Session, e: MarketEvent) {
    && s.pending.Some?
    && (e in s.pending.value.buf
        || (Accountable(e) && s.pending.value.dropped.Some? && Within(SpanOf(e), s.pending.value.dropped.value)))
  }

  ghost predicate Tracked(s: S.Session, e: MarketEvent) {
    s.src.panicked || Buffered(s, e) || Emitted(s.src.out, e)
  }

  // ------------------------------------------------------------------- the source

  lemma ForwardedIsEmitted(s: S.Src, ev: MarketEvent)
    requires !S.Forward(s, ev).panicked
    ensures Emitted(S.Forward(s, ev).out, ev)
  {
    var x := Stamped(ev, s.nextSeq);
    assert S.Forward(s, ev).out[|s.out|] == x && Accounts(x, Stamped(ev, s.nextSeq));
    assert ReportsStamped(x, ev);
  }

  /** The source never takes a report back. */
  lemma EmittedStays(out: seq<MarketEvent>, out': seq<MarketEvent>, e: MarketEvent)
    requires out <= out' && Emitted(out, e)
    ensures Emitted(out', e)
  {
    var x :| x in out && ReportsStamped(x, e);
    assert x in out';
  }

  lemma {:induction false} ForwardAllGrows(s: S.Src, evs: seq<MarketEvent>)
    ensures s.out <= S.ForwardAll(s, evs).out && (s.panicked ==> S.ForwardAll(s, evs).panicked)
    decreases |evs|
  {
    if evs != [] {
      ForwardAllGrows(s, evs[..|evs| - 1]);
    }
  }

  lemma {:induction false} ForwardAllEmits(s: S.Src, evs: seq<MarketEvent>, e: MarketEvent)
    requires e in evs && !S.ForwardAll(s, evs).panicked
    ensures Emitted(S.ForwardAll(s, evs).out, e)
    decreases |evs|
  {
    var front, last := evs[..|evs| - 1], evs[|evs| - 1];
    var t := S.ForwardAll(s, front);
    if e == last {
      ForwardedIsEmitted(t, last);
    } else {
      assert e in front;
      ForwardAllEmits(s, front, e);
      EmittedStays(t.out, S.Forward(t, last).out, e);
    }
  }

  /** A report of a gap over `e` is a report of `e`. */
  lemma GapReports(out: seq<MarketEvent>, provider: string, i: Instrument, span: GapSpan, e: MarketEvent)
    requires Accountable(e) && InstrumentOf(e) == i && Within(SpanOf(e), span)
    requires Emitted(out, S.GapControl(provider, i, span))
    ensures Emitted(out, e)
  {
    var g := S.GapControl(provider, i, span);
    var x :| x in out && ReportsStamped(x, g);
    var n: Seq :| Accounts(x, Stamped(g, n));
    assert Accounts(Stamped(g, n), Stamped(e, 0));
    AccountsTransitive(x, Stamped(g, n), Stamped(e, 0));
    assert ReportsStamped(x, e);
  }

  /** The seam reports every buffered and every evicted arrival. */
  lemma SeamEmits(s: S.Session, e: MarketEvent)
    requires s.pending.Some? && Accountable(e) && InstrumentOf(e) == s.instrument && Buffered(s, e)
    ensures Tracked(S.Apply(s, S.Seam), e)
  {
    var r := s.pending.value;
    var seam := S.SeamEvents(r, s.provider, s.instrument);
    var t := S.ForwardAll(s.src, seam);
    if !t.panicked {
      if e in r.buf {
        assert e in seam;
        ForwardAllEmits(s.src, seam, e);
      } else {
        var g := S.GapControl(s.provider, s.instrument, r.dropped.value);
        assert seam[0] == g;
        ForwardAllEmits(s.src, seam, g);
        GapReports(t.out, s.provider, s.instrument, r.dropped.value, e);
      }
    }
  }

  lemma PushKeepsBuffered(s: S.Session, ev: MarketEvent, e: MarketEvent)
    requires s.pending.Some? && s.pending.value.capacity >= 1 && Accountable(e) && (Buffered(s, e) || e == ev)
    ensures Buffered(S.Apply(s, S.Arrival(ev)), e)
  {
    var r, r' := s.pending.value, S.Push(s.pending.value, ev);
    assert ev in r'.buf;
    if e in r.buf && e !in r'.buf {
      assert e == r.buf[0];
    }
  }

  predicate RingOk(s: S.Session) {
    s.pending.Some? ==> s.pending.value.capacity >= 1
  }

  lemma ApplyGrows(s: S.Session, op: S.Op)
    ensures s.src.out <= S.Apply(s, op).src.out && (s.src.panicked ==> S.Apply(s, op).src.panicked)
    ensures S.Apply(s, op).instrument == s.instrument && (RingOk(s) ==> RingOk(S.Apply(s, op)))
  {
    if op.Seam? && s.pending.Some? {
      ForwardAllGrows(s.src, S.SeamEvents(s.pending.value, s.provider, s.instrument));
    }
  }

  lemma ApplyKeepsTracked(s: S.Session, op: S.Op, e: MarketEvent)
    requires RingOk(s) && Accountable(e) && InstrumentOf(e) == s.instrument
    requires Tracked(s, e) || op == S.Arrival(e)
    ensures Tracked(S.Apply(s, op), e)
  {
    var s' := S.Apply(s, op);
    ApplyGrows(s, op);
    if !s'.src.panicked {
      if Emitted(s.src.out, e) {
        EmittedStays(s.src.out, s'.src.out, e);
      } else if op.Seam? && s.pending.Some? {
        SeamEmits(s, e);
      } else if op.Arrival? && s.pending.Some? {
        PushKeepsBuffered(s, op.ev, e);
      } else if op == S.Arrival(e) {
        ForwardedIsEmitted(s.src, e);
      }
    }
  }

  /** In every run of a source, whatever backfill, seam, tap change or seed it
      goes through, each live data event or gap that ever arrived is reported in
      its output, verbatim or inside a gap, or still in its backfill ring. */
  lemma {:induction false} EveryArrivalIsTracked(start: S.Session, ops: seq<S.Op>, e: MarketEvent)
    requires RingOk(start) && S.Arrival(e) in ops && Accountable(e) && InstrumentOf(e) == start.instrument
    ensures Tracked(S.Run(start, ops), e)
    decreases |ops|
  {
    var front, op := ops[..|ops| - 1], ops[|ops| - 1];
    RunKeepsShape(start, front);
    if op != S.Arrival(e) {
      assert S.Arrival(e) in front;
      EveryArrivalIsTracked(start, front, e);
    }
    ApplyKeepsTracked(S.Run(start, front), op, e);
  }

  lemma {:induction false} RunKeepsShape(start: S.Session, ops: seq<S.Op>)
    requires RingOk(start)
    ensures RingOk(S.Run(start, ops)) && S.Run(start, ops).instrument == start.instrument
    decreases |ops|
  {
    if ops != [] {
      RunKeepsShape(start, ops[..|ops| - 1]);
      ApplyGrows(S.Run(start, ops[..|ops| - 1]), ops[|ops| - 1]);
    }
  }

  // -------------------------------------------------------------------- the client

  /** The client's side accounts for `e`, under some `seq`; or the source exited
      owing the gap that would have. */
  ghost predicate KnownToClient(t: Sys, k: Key, e: MarketEvent)
    requires WellFormed(t) && k in t.links
  {
    exists n: Seq :: AccountedFor(t, k, Stamped(e, n)) || Abandoned(t.links[k], Stamped(e, n))
  }

  /** What has been fanned out reports `e`, so the client's side knows of it. */
  lemma FannedReportIsKnown(t: Sys, k: Key, e: MarketEvent)
    requires WellFormed(t) && NoSilentLoss(t) && k in t.links && Accountable(e) && Emitted(t.links[k].fanned, e)
    ensures KnownToClient(t, k, e)
  {
    var x :| x in t.links[k].fanned && ReportsStamped(x, e);
    var n: Seq :| Accounts(x, Stamped(e, n));
    if AccountedFor(t, k, x) {
      var y :| Evident(t, k, y) && Accounts(y, x);
      AccountsTransitive(y, x, Stamped(e, n));
      assert AccountedFor(t, k, Stamped(e, n));
    } else {
      AccountsTransitive(t.links[k].ref.pending.value.ToEvent(), x, Stamped(e, n));
      assert Abandoned(t.links[k], Stamped(e, n));
    }
  }

  lemma EmittedSplits(a: seq<MarketEvent>, b: seq<MarketEvent>, e: MarketEvent)
    requires Emitted(a + b, e)
    ensures Emitted(a, e) || Emitted(b, e)
  {
    var x :| x in a + b && ReportsStamped(x, e);
  }

  /** A report in the output precedes the joining, has been fanned out, or is
      about to be. */
  lemma EmittedSomewhere(out: seq<MarketEvent>, joined: nat, fanned: seq<MarketEvent>, e: MarketEvent)
    requires joined <= |out| && fanned <= out[joined..] && Emitted(out, e)
    ensures Emitted(out[..joined], e) || Emitted(fanned, e) || Emitted(out[joined..][|fanned|..], e)
  {
    assert out == out[..joined] + out[joined..];
    EmittedSplits(out[..joined], out[joined..], e);
    if Emitted(out[joined..], e) {
      assert out[joined..] == fanned + out[joined..][|fanned|..];
      EmittedSplits(fanned, out[joined..][|fanned|..], e);
    }
  }

  /** End to end, for any subscription: one that joined when the source had put
      out `joined` events has been fanned some stretch of the output from there.
      Then for every data event or gap that ever arrived live: it still is in
      the source's backfill ring, was reported before the subscription joined, or
      is in the output about to be fanned out; or the client was handed it or a
      gap over it, or is about to be, or it lies in the one gap an exited source
      owed. */
  lemma NoLiveArrivalIsLostSilently(
    start: S.Session, ops: seq<S.Op>, joined: nat,
    ringCapacity: nat, channelCapacity: nat, steps: seq<Step>, t: Sys, k: Key, e: MarketEvent)
    requires RingOk(start) && start.instrument == k.instrument && !S.Run(start, ops).src.panicked
    requires Runs(Init(ringCapacity, channelCapacity), steps, t) && k in t.links
    requires joined <= |S.Run(start, ops).src.out| && t.links[k].fanned <= S.Run(start, ops).src.out[joined..]
    requires S.Arrival(e) in ops && Accountable(e) && InstrumentOf(e) == k.instrument
    ensures WellFormed(t)
    ensures var s := S.Run(start, ops); var out := s.src.out;
      || Buffered(s, e)
      || Emitted(out[..joined], e)
      || Emitted(out[joined..][|t.links[k].fanned|..], e)
      || KnownToClient(t, k, e)
  {
    RunKeepsNoSilentLoss(Init(ringCapacity, channelCapacity), steps, t);
    EveryArrivalIsTracked(start, ops, e);
    var out, fanned := S.Run(start, ops).src.out, t.links[k].fanned;
    if Emitted(out, e) {
      EmittedSomewhere(out, joined, fanned, e);
      if Emitted(fanned, e) {
        FannedReportIsKnown(t, k, e);
      }
    }
  }

  /** For the opener, whose channel is in place before the source starts: once the
      seam is past and all output has been fanned out, every live arrival,
      evicted from the backfill ring or not, is known to the client. */
  lemma EveryLiveArrivalReachesTheOpener(
    start: S.Session, ops: seq<S.Op>,
    ringCapacity: nat, channelCapacity: nat, steps: seq<Step>, t: Sys, k: Key, e: MarketEvent)
    requires RingOk(start) && start.instrument == k.instrument && !S.Run(start, ops).src.panicked
    requires S.Run(start, ops).pending.None?
    requires Runs(Init(ringCapacity, channelCapacity), steps, t) && k in t.links
    requires t.links[k].fanned == S.Run(start, ops).src.out
    requires S.Arrival(e) in ops && Accountable(e) && InstrumentOf(e) == k.instrument
    ensures WellFormed(t) && KnownToClient(t, k, e)
  {
    var out := S.Run(start, ops).src.out;
    assert out[0..] == out && out[..0] == [] && out[|out|..] == [];
    NoLiveArrivalIsLostSilently(start, ops, 0, ringCapacity, channelCapacity, steps, t, k, e);
  }
}
