/** Streaming planned segments: replay the covered ones, fetch the others, store
    what was fetched under an honest claim, and gap whatever could not be had. */
module SegmentStreams {
  import opened Events
  import opened ReadThrough
  import S = Sources

  /** The session: its instrument and provider, whether fetched data is stored,
      and the live edge of a backfill (`None` for a plain historical session). */
  datatype Ctx = Ctx(provider: string, instrument: Instrument, writeCache: bool, edge: Option<Timestamp>)

  /** What the world did with one segment. `seen` is the cache when the segment
      starts, after whatever other sessions stored meanwhile. */
  datatype Outcome =
    | Replayed(seen: Cache)
    | OpenFailed(seen: Cache)
    | Fetched(seen: Cache, events: seq<MarketEvent>, error: Option<string>, stored: bool)

  predicate Fits(s: Segment, o: Outcome) {
    s.Uncovered? <==> o.Fetched?
  }

  predicate Planned(segs: seq<Segment>, plan: seq<Outcome>) {
    |plan| == |segs| && forall n | 0 <= n < |segs| :: Fits(segs[n], plan[n])
  }

  // ----------------------------------------------------------- claims on fetch

  function Later(m: Option<Timestamp>, e: MarketEvent): Option<Timestamp> {
    if !IsData(e) then m
    else if m.None? then Some(e.sourceTs)
    else Some(Max(m.value, e.sourceTs))
  }

  function MaxDataTs(evs: seq<MarketEvent>): Option<Timestamp> {
    if evs == [] then None else Later(MaxDataTs(evs[..|evs| - 1]), evs[|evs| - 1])
  }

  /** One past the last data timestamp, clamped to the segment; its start when
      no data arrived. */
  function ConfirmedPrefixEnd(m: Option<Timestamp>, f: Timestamp, t: Timestamp): Timestamp {
    if m.None? then f
    else
      var e := SaturatingSucc(m.value);
      if e < f then f else if e > t then t else e
  }

  function Confirmed(s: Segment, evs: seq<MarketEvent>): Timestamp {
    ConfirmedPrefixEnd(MaxDataTs(evs), s.from, s.to)
  }

  /** How far the store claims coverage for a fetched segment. */
  function ClaimTo(ctx: Ctx, s: Segment, o: Outcome): Timestamp
    requires o.Fetched?
  {
    if o.error.None? && ctx.edge != Some(s.to) then s.to else Confirmed(s, o.events)
  }

  function CacheAfter(ctx: Ctx, s: Segment, o: Outcome): Cache {
    if o.Fetched? && ctx.writeCache && o.stored then Store(o.seen, s.from, ClaimTo(ctx, s, o), o.events) else o.seen
  }

  predicate Fails(o: Outcome) {
    o.Fetched? && o.error.Some?
  }

  // ---------------------------------------------------------------- streaming

  function GapOut(ctx: Ctx, f: Timestamp, t: Timestamp): MarketEvent {
    GapEvent(0, ctx.instrument, GapSpan(f, t), ctx.provider)
  }

  /** The remainder of a failed fetch, and its cause. */
  function FailureOut(ctx: Ctx, s: Segment, evs: seq<MarketEvent>, message: string): seq<MarketEvent> {
    var c := Confirmed(s, evs);
    var gapTo := if ctx.edge.Some? then ctx.edge.value else s.to;
    (if c < gapTo then [GapOut(ctx, c, gapTo)] else []) + [Control(c, c, 0, ProviderError(ctx.provider, message))]
  }

  function SegmentOut(ctx: Ctx, s: Segment, o: Outcome): seq<MarketEvent> {
    match o
    case Replayed(c) => Replay(c, s.from, s.to)
    case OpenFailed(_) => [GapOut(ctx, s.from, s.to)]
    case Fetched(_, evs, error, _) => evs + if error.Some? then FailureOut(ctx, s, evs, error.value) else []
  }

  /** Everything the segments put out, in order, before stamping. A failed fetch
      abandons the segments after it. */
  function StreamOut(ctx: Ctx, segs: seq<Segment>, plan: seq<Outcome>): seq<MarketEvent>
    requires |plan| == |segs|
  {
    if segs == [] then []
    else if Fails(plan[0]) then SegmentOut(ctx, segs[0], plan[0])
    else SegmentOut(ctx, segs[0], plan[0]) + StreamOut(ctx, segs[1..], plan[1..])
  }

  /** How many segments are processed before the stream ends. */
  function Processed(segs: seq<Segment>, plan: seq<Outcome>): (n: nat)
    requires |plan| == |segs|
    ensures n <= |segs|
  {
    if segs == [] then 0 else if Fails(plan[0]) then 1 else 1 + Processed(segs[1..], plan[1..])
  }

  /** The fetch loop's bookkeeping: forward everything, keep the maximum. */
  method FetchSegment(events: seq<MarketEvent>) returns (maxTs: Option<Timestamp>, batch: seq<MarketEvent>)
    ensures maxTs == MaxDataTs(events) && batch == events
  {
    maxTs, batch := None, [];
    for n := 0 to |events|
      invariant maxTs == MaxDataTs(events[..n]) && batch == events[..n]
    {
      assert events[..n + 1][..n] == events[..n];
      maxTs := Later(maxTs, events[n]);
      batch := batch + [events[n]];
    }
    assert events[..|events|] == events;
  }

  /** One segment more, seen from the loop. */
  lemma StreamFrom(ctx: Ctx, segs: seq<Segment>, plan: seq<Outcome>, n: nat, out: seq<MarketEvent>, produced: seq<MarketEvent>)
    requires |plan| == |segs| && n < |segs| && produced == SegmentOut(ctx, segs[n], plan[n])
    ensures out + StreamOut(ctx, segs[n..], plan[n..]) ==
      if Fails(plan[n]) then out + produced else (out + produced) + StreamOut(ctx, segs[n + 1..], plan[n + 1..])
    ensures Processed(segs[n..], plan[n..]) == if Fails(plan[n]) then 1 else 1 + Processed(segs[n + 1..], plan[n + 1..])
  {
    assert segs[n..][0] == segs[n] && plan[n..][0] == plan[n];
    assert segs[n..][1..] == segs[n + 1..] && plan[n..][1..] == plan[n + 1..];
    if !Fails(plan[n]) {
      ConcatAssoc(out, produced, StreamOut(ctx, segs[n + 1..], plan[n + 1..]));
    }
  }

  /** What is left to do at segment `n`: where the loop stands. */
  predicate Standing(ctx: Ctx, segs: seq<Segment>, plan: seq<Outcome>, n: nat, out: seq<MarketEvent>, done: bool)
    requires |plan| == |segs| && n <= |segs|
  {
    if done then out == StreamOut(ctx, segs, plan) && n == Processed(segs, plan)
    else
      && out + StreamOut(ctx, segs[n..], plan[n..]) == StreamOut(ctx, segs, plan)
      && n + Processed(segs[n..], plan[n..]) == Processed(segs, plan)
  }

  lemma StandingStep(
    ctx: Ctx, segs: seq<Segment>, plan: seq<Outcome>, n: nat, out: seq<MarketEvent>, produced: seq<MarketEvent>)
    requires |plan| == |segs| && n < |segs| && Standing(ctx, segs, plan, n, out, false)
    requires produced == SegmentOut(ctx, segs[n], plan[n])
    ensures Standing(ctx, segs, plan, n + 1, out + produced, Fails(plan[n]))
  {
    StreamFrom(ctx, segs, plan, n, out, produced);
  }

  lemma StandingAtTheStart(ctx: Ctx, segs: seq<Segment>, plan: seq<Outcome>)
    requires |plan| == |segs|
    ensures Standing(ctx, segs, plan, 0, [], false)
  {
    assert segs[0..] == segs && plan[0..] == plan;
    assert [] + StreamOut(ctx, segs, plan) == StreamOut(ctx, segs, plan);
  }

  lemma StandingAtTheEnd(ctx: Ctx, segs: seq<Segment>, plan: seq<Outcome>, out: seq<MarketEvent>)
    requires |plan| == |segs| && Standing(ctx, segs, plan, |segs|, out, false)
    ensures Standing(ctx, segs, plan, |segs|, out, true)
  {
    assert segs[|segs|..] == [] && plan[|segs|..] == [] && out + [] == out;
  }

  method StreamSegments(ctx: Ctx, segs: seq<Segment>, plan: seq<Outcome>)
    returns (out: seq<MarketEvent>, stores: seq<Cache>)
    requires Planned(segs, plan)
    ensures out == StreamOut(ctx, segs, plan)
    ensures |stores| == Processed(segs, plan)
    ensures forall n | 0 <= n < |stores| :: Leaves(ctx, segs[n], plan[n], stores[n])
  {
    out, stores := [], [];
    var n, failed := 0, false;
    StandingAtTheStart(ctx, segs, plan);
    while n < |segs| && !failed
      invariant n <= |segs| && |stores| == n && Standing(ctx, segs, plan, n, out, failed)
      invariant forall k | 0 <= k < n :: Leaves(ctx, segs[k], plan[k], stores[k])
    {
      var produced, after, ended := StreamOne(ctx, segs[n], plan[n]);
      StandingStep(ctx, segs, plan, n, out, produced);
      assert Leaves(ctx, segs[n], plan[n], after);
      out, stores, n, failed := out + produced, stores + [after], n + 1, ended;
    }
    if !failed {
      StandingAtTheEnd(ctx, segs, plan, out);
    }
  }

  predicate Leaves(ctx: Ctx, s: Segment, o: Outcome, c: Cache) {
    c == CacheAfter(ctx, s, o)
  }

  /** Only a fetch in write mode changes the cache. */
  lemma NothingElseIsStored(ctx: Ctx, s: Segment, o: Outcome)
    requires !ctx.writeCache || !o.Fetched? || !o.stored
    ensures CacheAfter(ctx, s, o) == o.seen
  {
  }

  method StreamOne(ctx: Ctx, s: Segment, o: Outcome)
    returns (produced: seq<MarketEvent>, after: Cache, failed: bool)
    requires Fits(s, o)
    ensures produced == SegmentOut(ctx, s, o) && after == CacheAfter(ctx, s, o) && failed == Fails(o)
  {
    produced, after, failed := [], o.seen, false;
    match o
    case Replayed(c) =>
      produced := Replay(c, s.from, s.to);
    case OpenFailed(_) =>
      produced := [GapOut(ctx, s.from, s.to)];
    case Fetched(c, events, error, stored) =>
      var maxTs, batch := FetchSegment(events);
      produced := events;
      if error.None? {
        var claim := if ctx.edge == Some(s.to) then ConfirmedPrefixEnd(maxTs, s.from, s.to) else s.to;
        if ctx.writeCache && stored {
          after := Store(c, s.from, claim, batch);
        }
      } else {
        var confirmed := ConfirmedPrefixEnd(maxTs, s.from, s.to);
        if ctx.writeCache && stored {
          after := Store(c, s.from, confirmed, batch);
        }
        var gapTo := if ctx.edge.Some? then ctx.edge.value else s.to;
        var owed := [];
        if confirmed < gapTo {
          owed := [GapOut(ctx, confirmed, gapTo)];
        }
        owed := owed + [Control(confirmed, confirmed, 0, ProviderError(ctx.provider, error.value))];
        produced := produced + owed;
        failed := true;
      }
  }

  // ------------------------------------------- the read-through cache is invisible

  /** Replays and fetches all succeed, against caches that only grew, honestly,
      since the plan was made. */
  predicate Succeeds(h: seq<MarketEvent>, planned: Cache, segs: seq<Segment>, plan: seq<Outcome>) {
    && Planned(segs, plan)
    && forall n | 0 <= n < |segs| ::
      && Honest(plan[n].seen, h) && Grows(planned, plan[n].seen)
      && (if segs[n].Covered? then plan[n].Replayed?
          else plan[n].events == Slice(h, segs[n].from, segs[n].to) && plan[n].error.None?)
  }

  predicate CoveredIn(c: Cache, segs: seq<Segment>) {
    forall n | 0 <= n < |segs| && segs[n].Covered? :: Covers(c, segs[n].from, segs[n].to)
  }

  lemma SegmentIsItsSlice(ctx: Ctx, h: seq<MarketEvent>, c: Cache, s: Segment, o: Outcome)
    requires IsHistory(h) && CoveredIn(c, [s]) && Succeeds(h, c, [s], [o])
    ensures !Fails(o) && SegmentOut(ctx, s, o) == Slice(h, s.from, s.to)
  {
    assert [s][0] == s && [o][0] == o;
    if s.Covered? {
      assert Covers(c, s.from, s.to);
      ReplayIsSlice(o.seen, h, s.from, s.to);
    }
  }

  lemma {:induction false} SuccessStreamsTheSlice(
    ctx: Ctx, h: seq<MarketEvent>, c: Cache, segs: seq<Segment>, plan: seq<Outcome>, from: int, to: int)
    requires IsHistory(h) && Chain(segs, from, to) && CoveredIn(c, segs) && Succeeds(h, c, segs, plan)
    ensures StreamOut(ctx, segs, plan) == Slice(h, from, to)
  {
    if segs == [] {
      SliceEmpty(h, from, to);
    } else {
      SegmentIsItsSlice(ctx, h, c, segs[0], plan[0]);
      SuccessStreamsTheSlice(ctx, h, c, segs[1..], plan[1..], segs[0].to, to);
      ChainOrder(segs[1..], segs[0].to, to);
      SliceSplit(h, from, segs[0].to, to);
    }
  }

  /** For any honest cache, any report that leaves only covered instants outside
      its gaps (the whole range, when the cache is not read or `gaps()` fails,
      is one), and any honest interference: a cached session whose replays and
      fetches succeed puts out exactly the provider's history of the range, event
      for event, whether or not it writes back. */
  lemma CacheIsInvisible(
    ctx: Ctx, h: seq<MarketEvent>, c: Cache, from: Timestamp, to: Timestamp, gaps: seq<GapSpan>, plan: seq<Outcome>)
    requires IsHistory(h) && from <= to && OrderedGaps(gaps, from, to)
    requires forall x | from <= x < to && !InGaps(gaps, x) :: x in c
    requires Succeeds(h, c, TileFrom(from, to, gaps), plan)
    ensures StreamOut(ctx, TileFrom(from, to, gaps), plan) == Slice(h, from, to)
  {
    var segs := TileFrom(from, to, gaps);
    TilePartitionsTheRequest(from, to, gaps);
    forall n, x | 0 <= n < |segs| && segs[n].Covered? && segs[n].from <= x < segs[n].to
      ensures x in c
    {
      assert segs[n] in segs && InSegment(x, segs[n]);
      ChainBounds(segs, from, to, segs[n]);
    }
    SuccessStreamsTheSlice(ctx, h, c, segs, plan, from, to);
  }

  /** What reaches the consumer, stamped: segment data is emitted without the
      tee, a plain fetch is forwarded with it. */
  function EmitAll(src: S.Src, evs: seq<MarketEvent>): S.Src
    decreases |evs|
  {
    if evs == [] then src else S.Emit(EmitAll(src, evs[..|evs| - 1]), evs[|evs| - 1])
  }

  lemma {:induction false} EmitStampsAsForward(src: S.Src, evs: seq<MarketEvent>)
    ensures var e, f := EmitAll(src, evs), S.ForwardAll(src, evs);
      e.out == f.out && e.nextSeq == f.nextSeq && e.panicked == f.panicked
    decreases |evs|
  {
    if evs != [] {
      EmitStampsAsForward(src, evs[..|evs| - 1]);
    }
  }

  /** The cached session delivers what the uncached one delivers, with the same
      `seq` values, from any point of a session's life. */
  lemma CachedSessionIsTheUncachedOne(
    ctx: Ctx, h: seq<MarketEvent>, c: Cache, from: Timestamp, to: Timestamp, gaps: seq<GapSpan>, plan: seq<Outcome>,
    src: S.Src)
    requires IsHistory(h) && from <= to && OrderedGaps(gaps, from, to)
    requires forall x | from <= x < to && !InGaps(gaps, x) :: x in c
    requires Succeeds(h, c, TileFrom(from, to, gaps), plan)
    ensures EmitAll(src, StreamOut(ctx, TileFrom(from, to, gaps), plan)).out == S.ForwardAll(src, Slice(h, from, to)).out
  {
    CacheIsInvisible(ctx, h, c, from, to, gaps, plan);
    EmitStampsAsForward(src, Slice(h, from, to));
  }

  /** A read-write session that succeeds throughout leaves its whole range
      covered, so an identical request coming later finds no gap. */
  lemma {:induction false} SuccessFillsTheRange(
    ctx: Ctx, h: seq<MarketEvent>, c: Cache, segs: seq<Segment>, plan: seq<Outcome>, last: Cache, x: int)
    requires ctx.writeCache && ctx.edge.None? && CoveredIn(c, segs) && Succeeds(h, c, segs, plan)
    requires forall n | 0 <= n < |segs| ::
      (plan[n].Fetched? ==> plan[n].stored) && Grows(CacheAfter(ctx, segs[n], plan[n]), last)
    requires exists n :: 0 <= n < |segs| && InSegment(x, segs[n])
    ensures x in last
  {
    var n :| 0 <= n < |segs| && InSegment(x, segs[n]);
    assert Grows(CacheAfter(ctx, segs[n], plan[n]), last);
    if segs[n].Covered? {
      assert x in c;
      assert x in plan[n].seen;
    }
  }

  // ------------------------------------------------------- claims are honest

  /** A fetch that delivered `got` out of `full`: a prefix of it whose cut-off
      does not fall between events sharing a timestamp. */
  predicate Unsplit(got: seq<MarketEvent>, full: seq<MarketEvent>) {
    got <= full && (|got| > 0 && |got| < |full| ==> full[|got| - 1].sourceTs < full[|got|].sourceTs)
  }

  /** In-range ordered fetches: complete when the fetch reports success away
      from the live edge, else any unsplit prefix. */
  predicate FaithfulFetch(ctx: Ctx, h: seq<MarketEvent>, s: Segment, o: Outcome) {
    o.Fetched? ==>
      var full := Slice(h, s.from, s.to);
      && Unsplit(o.events, full)
      && (o.error.None? && ctx.edge != Some(s.to) ==> o.events == full)
  }

  lemma {:induction false} MaxIsLast(evs: seq<MarketEvent>)
    requires IsHistory(evs)
    ensures MaxDataTs(evs) == if evs == [] then None else Some(evs[|evs| - 1].sourceTs)
  {
    if evs != [] {
      MaxIsLast(evs[..|evs| - 1]);
    }
  }

  /** The confirmed end is one past the last event received. */
  lemma ConfirmedOfPrefix(s: Segment, full: seq<MarketEvent>, got: seq<MarketEvent>)
    requires IsHistory(full) && (forall e | e in full :: s.from <= e.sourceTs < s.to)
    requires got <= full && s.from <= s.to
    ensures Confirmed(s, got) == if got == [] then s.from else got[|got| - 1].sourceTs + 1
    ensures s.from <= Confirmed(s, got) <= s.to
  {
    PrefixIsHistory(got, full);
    MaxIsLast(got);
    if got != [] {
      assert got[|got| - 1] in full;
    }
  }

  lemma ConfirmedIsPastLast(h: seq<MarketEvent>, s: Segment, got: seq<MarketEvent>)
    requires IsHistory(h) && got <= Slice(h, s.from, s.to) && s.from <= s.to
    ensures Confirmed(s, got) == if got == [] then s.from else got[|got| - 1].sourceTs + 1
    ensures s.from <= Confirmed(s, got) <= s.to
  {
    SliceIn(h, s.from, s.to);
    ConfirmedOfPrefix(s, Slice(h, s.from, s.to), got);
  }

  lemma PrefixIsHistory(got: seq<MarketEvent>, full: seq<MarketEvent>)
    requires got <= full && IsHistory(full)
    ensures IsHistory(got)
    ensures forall e | e in got :: e in full
  {
    assert forall n | 0 <= n < |got| :: got[n] == full[n];
  }

  /** At an instant below an unsplit cut-off, the batch is the history. */
  lemma BatchIsHistoryBelowClaim(h: seq<MarketEvent>, s: Segment, got: seq<MarketEvent>, claim: int, x: int)
    requires IsHistory(h) && got <= Slice(h, s.from, s.to) && s.from <= x < claim <= s.to
    requires forall n | |got| <= n < |Slice(h, s.from, s.to)| :: claim <= Slice(h, s.from, s.to)[n].sourceTs
    ensures At(got, x) == At(h, x)
  {
    PrefixAt(Slice(h, s.from, s.to), got, x);
    AtSlice(h, s.from, s.to, x);
  }

  lemma PrefixAt(full: seq<MarketEvent>, got: seq<MarketEvent>, x: int)
    requires got <= full && forall n | |got| <= n < |full| :: x < full[n].sourceTs
    ensures At(got, x) == At(full, x)
  {
    var rest := full[|got|..];
    assert full == got + rest;
    SliceConcat(got, rest, x, x + 1);
    SliceEmpty(rest, x, x + 1);
  }

  lemma UnsplitRestIsPastConfirmed(h: seq<MarketEvent>, s: Segment, got: seq<MarketEvent>, n: nat)
    requires IsHistory(h) && s.from <= s.to && Unsplit(got, Slice(h, s.from, s.to))
    requires |got| <= n < |Slice(h, s.from, s.to)|
    ensures Confirmed(s, got) <= Slice(h, s.from, s.to)[n].sourceTs
  {
    var full := Slice(h, s.from, s.to);
    ConfirmedIsPastLast(h, s, got);
    SliceIn(h, s.from, s.to);
    assert full[n] in full;
    if got != [] {
      assert got[|got| - 1] == full[|got| - 1];
      assert full[|got|].sourceTs <= full[n].sourceTs;
    }
  }

  /** Coverage claims are honest: whatever one segment's outcome (complete
      fetch, mid-fetch failure, or a lagging fetch at the live edge), storing
      under its claim keeps every covered instant equal to the history. */
  lemma StoreKeepsCacheHonest(ctx: Ctx, h: seq<MarketEvent>, s: Segment, o: Outcome)
    requires IsHistory(h) && s.from <= s.to && Honest(o.seen, h) && FaithfulFetch(ctx, h, s, o)
    ensures Honest(CacheAfter(ctx, s, o), h)
  {
    if o.Fetched? && ctx.writeCache && o.stored {
      var claim, full := ClaimTo(ctx, s, o), Slice(h, s.from, s.to);
      ConfirmedIsPastLast(h, s, o.events);
      forall x | s.from <= x < claim
        ensures At(o.events, x) == At(h, x)
      {
        forall n | |o.events| <= n < |full|
          ensures claim <= full[n].sourceTs
        {
          UnsplitRestIsPastConfirmed(h, s, o.events, n);
        }
        BatchIsHistoryBelowClaim(h, s, o.events, claim, x);
      }
    }
  }

  /** Between two of our steps only honest stores of other sessions happen. */
  predicate OthersHonest(h: seq<MarketEvent>, before: Cache, after: Cache) {
    forall x | x in after :: (x in before && after[x] == before[x]) || after[x] == At(h, x)
  }

  /** Starting from an honest cache, every cache a whole stream of segments sees
      or leaves behind is honest, other sessions' stores included. */
  lemma {:induction false} EveryStoreIsHonest(
    ctx: Ctx, h: seq<MarketEvent>, segs: seq<Segment>, plan: seq<Outcome>, n: nat)
    requires IsHistory(h) && Planned(segs, plan) && n < |segs|
    requires Honest(plan[0].seen, h)
    requires forall k | 0 <= k < |segs| :: segs[k].from <= segs[k].to && FaithfulFetch(ctx, h, segs[k], plan[k])
    requires forall k | 0 <= k < |segs| - 1 :: OthersHonest(h, CacheAfter(ctx, segs[k], plan[k]), plan[k + 1].seen)
    ensures Honest(plan[n].seen, h) && Honest(CacheAfter(ctx, segs[n], plan[n]), h)
  {
    if n > 0 {
      EveryStoreIsHonest(ctx, h, segs, plan, n - 1);
      assert OthersHonest(h, CacheAfter(ctx, segs[n - 1], plan[n - 1]), plan[n - 1 + 1].seen);
    }
    StoreKeepsCacheHonest(ctx, h, segs[n], plan[n]);
  }

  lemma SplitLosesAnEvent(full: seq<MarketEvent>, got: seq<MarketEvent>, x: int)
    requires got <= full && |got| < |full| && full[|got|].sourceTs == x
    ensures |At(got, x)| < |At(full, x)|
  {
    var rest := full[|got|..];
    assert full == got + rest;
    SliceConcat(got, rest, x, x + 1);
    assert Keep(rest[0], x, x + 1) == [rest[0]];
  }

  /** A claim over an instant the batch holds less of than the history. */
  lemma ShortClaimIsDishonest(c: Cache, h: seq<MarketEvent>, s: Segment, got: seq<MarketEvent>, claim: int, x: int)
    requires s.from <= x < s.to && x < claim && |At(got, x)| < |At(Slice(h, s.from, s.to), x)|
    ensures !Honest(Store(c, s.from, claim, got), h)
  {
    AtSlice(h, s.from, s.to, x);
    assert Store(c, s.from, claim, got)[x] == At(got, x);
  }

  /** The first event missing from a proper prefix, in its segment. */
  lemma MissingEvent(h: seq<MarketEvent>, s: Segment, got: seq<MarketEvent>) returns (x: int)
    requires IsHistory(h) && got <= Slice(h, s.from, s.to) && got != Slice(h, s.from, s.to)
    ensures |got| < |Slice(h, s.from, s.to)| && x == Slice(h, s.from, s.to)[|got|].sourceTs
    ensures s.from <= x < s.to && |At(got, x)| < |At(Slice(h, s.from, s.to), x)|
  {
    var full := Slice(h, s.from, s.to);
    SliceIn(h, s.from, s.to);
    assert full[|got|] in full;
    x := full[|got|].sourceTs;
    SplitLosesAnEvent(full, got, x);
  }

  /** The confirmed end lies past the first missing event when the cut-off
      splits a timestamp. */
  lemma SplitIsBelowConfirmed(h: seq<MarketEvent>, s: Segment, got: seq<MarketEvent>)
    requires IsHistory(h) && s.from <= s.to && got <= Slice(h, s.from, s.to) && !Unsplit(got, Slice(h, s.from, s.to))
    ensures |got| < |Slice(h, s.from, s.to)| && Slice(h, s.from, s.to)[|got|].sourceTs < Confirmed(s, got)
  {
    ConfirmedIsPastLast(h, s, got);
    assert got[|got| - 1] == Slice(h, s.from, s.to)[|got| - 1];
  }

  /** Whether the store claims only what is confirmed: after a failure, and
      after any fetch that ends at the live edge. */
  predicate ClaimsConfirmed(ctx: Ctx, s: Segment, o: Outcome) {
    o.Fetched? && (o.error.Some? || ctx.edge == Some(s.to))
  }

  /** The assumption is exact, for every kind of claim. A fetch that delivered
      some prefix leaves an honest cache if and only if: where only the confirmed
      part is claimed (a failed fetch, or a lagging one at the live edge), its
      cut-off does not split a timestamp; where the whole segment is claimed, the
      prefix is all there is. */
  lemma ClaimIsHonestIffUnsplitOrComplete(ctx: Ctx, h: seq<MarketEvent>, s: Segment, o: Outcome)
    requires IsHistory(h) && s.from <= s.to && Honest(o.seen, h) && ctx.writeCache
    requires o.Fetched? && o.stored && o.events <= Slice(h, s.from, s.to)
    ensures Honest(CacheAfter(ctx, s, o), h) <==>
      if ClaimsConfirmed(ctx, s, o) then Unsplit(o.events, Slice(h, s.from, s.to)) else o.events == Slice(h, s.from, s.to)
  {
    if FaithfulFetch(ctx, h, s, o) {
      StoreKeepsCacheHonest(ctx, h, s, o);
    } else {
      var x := MissingEvent(h, s, o.events);
      if ClaimsConfirmed(ctx, s, o) {
        SplitIsBelowConfirmed(h, s, o.events);
      }
      ShortClaimIsDishonest(o.seen, h, s, o.events, ClaimTo(ctx, s, o), x);
    }
  }

  function At5(price: I64): MarketEvent {
    Trade(Instrument("p", Equity, "X"), 5, 5, 0, price, 1)
  }

  /** Two trades at one instant, the fetch failing between them: the cache then
      claims the instant with one trade missing. */
  lemma SplitCutOffIsDishonest()
    ensures var h := [At5(1), At5(2)];
      var ctx := Ctx("p", Instrument("p", Equity, "X"), true, None);
      IsHistory(h) && Honest(map[], h)
      && !Honest(CacheAfter(ctx, Uncovered(0, 10), Fetched(map[], [At5(1)], Some("reset"), true)), h)
  {
    var h := [At5(1), At5(2)];
    assert Slice(h[1..][1..], 0, 10) == [];
    assert Slice(h[1..], 0, 10) == [At5(2)];
    assert Slice(h, 0, 10) == h;
    ClaimIsHonestIffUnsplitOrComplete(
      Ctx("p", Instrument("p", Equity, "X"), true, None), h, Uncovered(0, 10), Fetched(map[], [At5(1)], Some("reset"), true));
  }

  // ------------------------------------------ what a stream puts out, instant by instant

  /** The data part of the output at `x` is the history there. */
  predicate Delivered(out: seq<MarketEvent>, h: seq<MarketEvent>, x: int) {
    At(S.DataOnly(out), x) == At(h, x)
  }

  predicate Gapped(out: seq<MarketEvent>, i: Instrument, x: int) {
    exists g :: g in out && IsGap(g) && InstrumentOf(g) == i && g.control.span.fromTs <= x < g.control.span.toTs
  }

  /** What the world may do with a segment: replay an honest, covering cache,
      fail to open the replay, or fetch faithfully. */
  predicate Faithful(ctx: Ctx, h: seq<MarketEvent>, s: Segment, o: Outcome) {
    && FaithfulFetch(ctx, h, s, o)
    && (o.Replayed? ==> Honest(o.seen, h) && Covers(o.seen, s.from, s.to))
  }

  predicate FaithfulPlan(ctx: Ctx, h: seq<MarketEvent>, segs: seq<Segment>, plan: seq<Outcome>) {
    Planned(segs, plan) && forall n | 0 <= n < |segs| :: Faithful(ctx, h, segs[n], plan[n])
  }

  /** How far a segment is served: all of a replay, all of a fetch that succeeded
      away from the live edge, the confirmed part of any other. */
  function ServedTo(ctx: Ctx, s: Segment, o: Outcome): int {
    match o
    case Replayed(_) => s.to
    case OpenFailed(_) => s.from
    case Fetched(_, evs, error, _) => if error.None? && ctx.edge != Some(s.to) then s.to else Confirmed(s, evs)
  }

  predicate ServedBy(ctx: Ctx, s: Segment, o: Outcome, x: int) {
    s.from <= x < ServedTo(ctx, s, o)
  }

  /** The instants a segment reports as lost: all of a replay that did not open,
      everything a failed fetch did not confirm, on to the live edge if any. */
  predicate GappedBy(ctx: Ctx, s: Segment, o: Outcome, x: int) {
    match o
    case Replayed(_) => false
    case OpenFailed(_) => s.from <= x < s.to
    case Fetched(_, evs, error, _) =>
      error.Some? && Confirmed(s, evs) <= x < if ctx.edge.Some? then ctx.edge.value else s.to
  }

  /** A fetch that succeeded at the live edge, past the last event it returned. */
  predicate LagsBy(ctx: Ctx, s: Segment, o: Outcome, x: int) {
    o.Fetched? && o.error.None? && ctx.edge == Some(s.to) && Confirmed(s, o.events) <= x < s.to
  }

  /** Some segment the stream gets to, before or at its first failed fetch. */
  ghost predicate SomeSegment(p: (Segment, Outcome) -> bool, segs: seq<Segment>, plan: seq<Outcome>)
    requires |plan| == |segs|
  {
    segs != [] && (p(segs[0], plan[0]) || (!Fails(plan[0]) && SomeSegment(p, segs[1..], plan[1..])))
  }

  ghost predicate Served(ctx: Ctx, segs: seq<Segment>, plan: seq<Outcome>, x: int)
    requires |plan| == |segs|
  {
    SomeSegment((s, o) => ServedBy(ctx, s, o, x), segs, plan)
  }

  ghost predicate Missed(ctx: Ctx, segs: seq<Segment>, plan: seq<Outcome>, x: int)
    requires |plan| == |segs|
  {
    SomeSegment((s, o) => GappedBy(ctx, s, o, x), segs, plan)
  }

  ghost predicate Lags(ctx: Ctx, segs: seq<Segment>, plan: seq<Outcome>, x: int)
    requires |plan| == |segs|
  {
    SomeSegment((s, o) => LagsBy(ctx, s, o, x), segs, plan)
  }

  // ------------------------------------------------------------- one segment's data

  lemma {:induction false} DataOfData(evs: seq<MarketEvent>)
    requires forall n | 0 <= n < |evs| :: IsData(evs[n])
    ensures S.DataOnly(evs) == evs
  {
    if evs != [] {
      DataOfData(evs[..|evs| - 1]);
      assert evs == evs[..|evs| - 1] + [evs[|evs| - 1]];
    }
  }

  lemma NoDataInControl(c: MarketEvent)
    requires c.Control?
    ensures S.DataOnly([c]) == []
  {
    assert [c][..0] == [];
  }

  lemma FailureHasNoData(ctx: Ctx, s: Segment, evs: seq<MarketEvent>, message: string)
    ensures S.DataOnly(FailureOut(ctx, s, evs, message)) == []
  {
    var out := FailureOut(ctx, s, evs, message);
    NoDataInControl(out[|out| - 1]);
    if |out| == 2 {
      NoDataInControl(out[0]);
      assert out == [out[0]] + [out[1]];
      S.DataOnlyConcat([out[0]], [out[1]]);
    } else {
      assert out == [out[0]];
    }
  }

  /** Cutting a slice where its timestamps cross `c` is slicing at `c`. */
  lemma PrefixIsSlice(h: seq<MarketEvent>, f: int, t: int, c: int, got: seq<MarketEvent>)
    requires IsHistory(h) && f <= c <= t && got <= Slice(h, f, t)
    requires forall n | 0 <= n < |got| :: got[n].sourceTs < c
    requires forall n | |got| <= n < |Slice(h, f, t)| :: c <= Slice(h, f, t)[n].sourceTs
    ensures got == Slice(h, f, c)
  {
    var full, a, b := Slice(h, f, t), Slice(h, f, c), Slice(h, c, t);
    SliceSplit(h, f, c, t);
    SliceIn(h, f, c);
    SliceIn(h, c, t);
    assert full == a + b;
    forall n | 0 <= n < |full|
      ensures full[n].sourceTs < c <==> n < |a|
    {
      assert if n < |a| then full[n] in a else full[n] in b;
    }
    assert forall n | 0 <= n < |got| :: got[n] == full[n];
    assert |a| < |full| ==> !(full[|a|].sourceTs < c);
    assert |got| < |full| ==> !(full[|got|].sourceTs < c);
    assert got == full[..|got|] && a == full[..|a|];
  }

  lemma ReceivedIsConfirmed(h: seq<MarketEvent>, s: Segment, got: seq<MarketEvent>)
    requires IsHistory(h) && s.from <= s.to && got <= Slice(h, s.from, s.to)
    ensures forall n | 0 <= n < |got| :: got[n].sourceTs < Confirmed(s, got)
  {
    ConfirmedIsPastLast(h, s, got);
    SliceIn(h, s.from, s.to);
    PrefixIsHistory(got, Slice(h, s.from, s.to));
  }

  lemma UnsplitIsSlice(h: seq<MarketEvent>, s: Segment, got: seq<MarketEvent>)
    requires IsHistory(h) && s.from <= s.to && Unsplit(got, Slice(h, s.from, s.to))
    ensures got == Slice(h, s.from, Confirmed(s, got))
  {
    ConfirmedIsPastLast(h, s, got);
    ReceivedIsConfirmed(h, s, got);
    forall n | |got| <= n < |Slice(h, s.from, s.to)|
      ensures Confirmed(s, got) <= Slice(h, s.from, s.to)[n].sourceTs
    {
      UnsplitRestIsPastConfirmed(h, s, got, n);
    }
    PrefixIsSlice(h, s.from, s.to, Confirmed(s, got), got);
  }

  /** The data a segment puts out is the history from its start to where it is
      served: a failed fetch's events included. */
  lemma SegmentDataIsSlice(ctx: Ctx, h: seq<MarketEvent>, s: Segment, o: Outcome)
    requires IsHistory(h) && s.from <= s.to && Fits(s, o) && Faithful(ctx, h, s, o)
    ensures s.from <= ServedTo(ctx, s, o) <= s.to
    ensures S.DataOnly(SegmentOut(ctx, s, o)) == Slice(h, s.from, ServedTo(ctx, s, o))
  {
    match o
    case Replayed(c) =>
      ReplayIsSlice(c, h, s.from, s.to);
      SliceIn(h, s.from, s.to);
      DataOfData(Slice(h, s.from, s.to));
    case OpenFailed(_) =>
      NoDataInControl(GapOut(ctx, s.from, s.to));
      SliceEmpty(h, s.from, s.from);
    case Fetched(_, evs, error, _) =>
      FetchedData(ctx, h, s, evs, error);
      ConfirmedIsPastLast(h, s, evs);
      if !(error.None? && ctx.edge != Some(s.to)) {
        UnsplitIsSlice(h, s, evs);
      }
  }

  lemma FetchedData(ctx: Ctx, h: seq<MarketEvent>, s: Segment, evs: seq<MarketEvent>, error: Option<string>)
    requires IsHistory(h) && evs <= Slice(h, s.from, s.to)
    ensures S.DataOnly(evs + if error.Some? then FailureOut(ctx, s, evs, error.value) else []) == evs
  {
    SliceIn(h, s.from, s.to);
    PrefixIsHistory(evs, Slice(h, s.from, s.to));
    DataOfData(evs);
    if error.Some? {
      FailureHasNoData(ctx, s, evs, error.value);
      S.DataOnlyConcat(evs, FailureOut(ctx, s, evs, error.value));
    } else {
      assert evs + [] == evs;
    }
  }

  // ------------------------------------------------------------- the whole stream

  lemma AtOutside(h: seq<MarketEvent>, f: int, t: int, x: int)
    requires IsHistory(h) && !(f <= x < t)
    ensures At(Slice(h, f, t), x) == []
  {
    SliceIn(h, f, t);
    var part := Slice(h, f, t);
    forall n | 0 <= n < |part|
      ensures !(x <= part[n].sourceTs < x + 1)
    {
      assert part[n] in part;
    }
    SliceEmpty(part, x, x + 1);
  }

  lemma AtPart(h: seq<MarketEvent>, f: int, t: int, x: int)
    requires IsHistory(h)
    ensures At(Slice(h, f, t), x) == if f <= x < t then At(h, x) else []
  {
    if f <= x < t {
      AtSlice(h, f, t, x);
    } else {
      AtOutside(h, f, t, x);
    }
  }

  lemma {:induction false} ServedIsInRange(
    ctx: Ctx, h: seq<MarketEvent>, segs: seq<Segment>, plan: seq<Outcome>, from: int, to: int, x: int)
    requires IsHistory(h) && Chain(segs, from, to) && FaithfulPlan(ctx, h, segs, plan) && Served(ctx, segs, plan, x)
    ensures from <= x < to
  {
    ChainOrder(segs[1..], segs[0].to, to);
    SegmentDataIsSlice(ctx, h, segs[0], plan[0]);
    if !ServedBy(ctx, segs[0], plan[0], x) {
      ServedIsInRange(ctx, h, segs[1..], plan[1..], segs[0].to, to, x);
    }
  }

  /** The data of a stream, at every instant: the history where it is served, and
      nothing anywhere else. */
  lemma {:induction false} StreamDeliversExactly(
    ctx: Ctx, h: seq<MarketEvent>, segs: seq<Segment>, plan: seq<Outcome>, from: int, to: int, x: int)
    requires IsHistory(h) && Chain(segs, from, to) && FaithfulPlan(ctx, h, segs, plan)
    ensures At(S.DataOnly(StreamOut(ctx, segs, plan)), x) == if Served(ctx, segs, plan, x) then At(h, x) else []
  {
    if segs != [] {
      var s, o := segs[0], plan[0];
      SegmentAt(ctx, h, s, o, x);
      if !Fails(o) {
        StreamDeliversExactly(ctx, h, segs[1..], plan[1..], s.to, to, x);
        DataAt(SegmentOut(ctx, s, o), StreamOut(ctx, segs[1..], plan[1..]), x);
        if Served(ctx, segs[1..], plan[1..], x) {
          ServedIsInRange(ctx, h, segs[1..], plan[1..], s.to, to, x);
        }
      }
    }
  }

  lemma SegmentAt(ctx: Ctx, h: seq<MarketEvent>, s: Segment, o: Outcome, x: int)
    requires IsHistory(h) && s.from <= s.to && Fits(s, o) && Faithful(ctx, h, s, o)
    ensures At(S.DataOnly(SegmentOut(ctx, s, o)), x) == if ServedBy(ctx, s, o, x) then At(h, x) else []
    ensures ServedBy(ctx, s, o, x) ==> x < s.to
  {
    SegmentDataIsSlice(ctx, h, s, o);
    AtPart(h, s.from, ServedTo(ctx, s, o), x);
  }

  lemma DataAt(a: seq<MarketEvent>, b: seq<MarketEvent>, x: int)
    ensures At(S.DataOnly(a + b), x) == At(S.DataOnly(a), x) + At(S.DataOnly(b), x)
  {
    S.DataOnlyConcat(a, b);
    SliceConcat(S.DataOnly(a), S.DataOnly(b), x, x + 1);
  }

  /** Where the data of a stream ends: where its first failed fetch, or else its
      last segment, is served to. */
  function EndsAt(ctx: Ctx, segs: seq<Segment>, plan: seq<Outcome>, from: int): int
    requires |plan| == |segs|
  {
    if segs == [] then from
    else if Fails(plan[0]) || |segs| == 1 then ServedTo(ctx, segs[0], plan[0])
    else EndsAt(ctx, segs[1..], plan[1..], segs[0].to)
  }

  /** If every replay opens, the data of a stream, in order, is exactly the history
      from its start to where it ends, a failed fetch's events included. */
  lemma {:induction false} StreamDataIsTheHistory(
    ctx: Ctx, h: seq<MarketEvent>, segs: seq<Segment>, plan: seq<Outcome>, from: int, to: int)
    requires IsHistory(h) && Chain(segs, from, to) && FaithfulPlan(ctx, h, segs, plan)
    requires (ctx.edge.Some? ==> ctx.edge.value == to) && forall n | 0 <= n < |plan| :: !plan[n].OpenFailed?
    ensures from <= EndsAt(ctx, segs, plan, from) <= to
    ensures S.DataOnly(StreamOut(ctx, segs, plan)) == Slice(h, from, EndsAt(ctx, segs, plan, from))
  {
    if segs == [] {
      SliceEmpty(h, from, from);
    } else {
      var s, o, rest := segs[0], plan[0], StreamOut(ctx, segs[1..], plan[1..]);
      SegmentDataIsSlice(ctx, h, s, o);
      ChainOrder(segs[1..], s.to, to);
      if !Fails(o) {
        StreamDataIsTheHistory(ctx, h, segs[1..], plan[1..], s.to, to);
        S.DataOnlyConcat(SegmentOut(ctx, s, o), rest);
        if |segs| == 1 {
          assert rest == [];
        } else {
          ChainOrder(segs[1..][1..], segs[1].to, to);
          SliceSplit(h, from, s.to, EndsAt(ctx, segs, plan, from));
        }
      }
    }
  }

  lemma GappedConcat(a: seq<MarketEvent>, b: seq<MarketEvent>, i: Instrument, x: int)
    ensures Gapped(a + b, i, x) <==> Gapped(a, i, x) || Gapped(b, i, x)
  {
    assert forall g | g in a :: g in a + b;
    assert forall g | g in b :: g in a + b;
  }

  lemma GappedByOne(g: MarketEvent, i: Instrument, x: int)
    requires IsGap(g) && InstrumentOf(g) == i
    ensures Gapped([g], i, x) <==> g.control.span.fromTs <= x < g.control.span.toTs
  {
    assert g in [g];
  }

  lemma DataIsNoGap(evs: seq<MarketEvent>, i: Instrument, x: int)
    requires forall e | e in evs :: !IsGap(e)
    ensures !Gapped(evs, i, x)
  {
  }

  lemma FailureGaps(ctx: Ctx, s: Segment, evs: seq<MarketEvent>, message: string, x: int)
    ensures Gapped(FailureOut(ctx, s, evs, message), ctx.instrument, x)
      <==> Confirmed(s, evs) <= x < if ctx.edge.Some? then ctx.edge.value else s.to
  {
    var c, gapTo := Confirmed(s, evs), if ctx.edge.Some? then ctx.edge.value else s.to;
    var error := [Control(c, c, 0, ProviderError(ctx.provider, message))];
    DataIsNoGap(error, ctx.instrument, x);
    if c < gapTo {
      GappedByOne(GapOut(ctx, c, gapTo), ctx.instrument, x);
      GappedConcat([GapOut(ctx, c, gapTo)], error, ctx.instrument, x);
    } else {
      assert [] + error == error;
    }
  }

  lemma SegmentGapsExactly(ctx: Ctx, h: seq<MarketEvent>, s: Segment, o: Outcome, x: int)
    requires IsHistory(h) && s.from <= s.to && Faithful(ctx, h, s, o)
    ensures Gapped(SegmentOut(ctx, s, o), ctx.instrument, x) <==> GappedBy(ctx, s, o, x)
  {
    SliceIn(h, s.from, s.to);
    match o
    case Replayed(c) =>
      ReplayIsSlice(c, h, s.from, s.to);
      DataIsNoGap(Slice(h, s.from, s.to), ctx.instrument, x);
    case OpenFailed(_) => GappedByOne(GapOut(ctx, s.from, s.to), ctx.instrument, x);
    case Fetched(_, evs, error, _) =>
      PrefixIsHistory(evs, Slice(h, s.from, s.to));
      DataIsNoGap(evs, ctx.instrument, x);
      if error.Some? {
        FailureGaps(ctx, s, evs, error.value, x);
        GappedConcat(evs, FailureOut(ctx, s, evs, error.value), ctx.instrument, x);
      } else {
        assert evs + [] == evs;
      }
  }

  /** The gaps of a stream, at every instant: exactly what was missed. */
  lemma {:induction false} StreamGapsExactly(
    ctx: Ctx, h: seq<MarketEvent>, segs: seq<Segment>, plan: seq<Outcome>, from: int, to: int, x: int)
    requires IsHistory(h) && Chain(segs, from, to) && FaithfulPlan(ctx, h, segs, plan)
    ensures Gapped(StreamOut(ctx, segs, plan), ctx.instrument, x) <==> Missed(ctx, segs, plan, x)
  {
    if segs != [] {
      SegmentGapsExactly(ctx, h, segs[0], plan[0], x);
      if !Fails(plan[0]) {
        StreamGapsExactly(ctx, h, segs[1..], plan[1..], segs[0].to, to, x);
        GappedConcat(SegmentOut(ctx, segs[0], plan[0]), StreamOut(ctx, segs[1..], plan[1..]), ctx.instrument, x);
      }
    }
  }

  /** Every gap of a stream names the session's provider and instrument and is
      stamped where it starts. */
  lemma {:induction false} GapsNameTheSession(
    ctx: Ctx, h: seq<MarketEvent>, segs: seq<Segment>, plan: seq<Outcome>, from: int, to: int, g: MarketEvent)
    requires IsHistory(h) && Chain(segs, from, to) && FaithfulPlan(ctx, h, segs, plan)
    requires g in StreamOut(ctx, segs, plan) && IsGap(g)
    ensures g.control.provider == ctx.provider && InstrumentOf(g) == ctx.instrument
    ensures g.sourceTs == g.control.span.fromTs
  {
    var s, o := segs[0], plan[0];
    if g in SegmentOut(ctx, s, o) {
      SliceIn(h, s.from, s.to);
      if o.Replayed? {
        ReplayIsSlice(o.seen, h, s.from, s.to);
      } else if o.Fetched? {
        PrefixIsHistory(o.events, Slice(h, s.from, s.to));
      }
    } else {
      GapsNameTheSession(ctx, h, segs[1..], plan[1..], s.to, to, g);
    }
  }

  // ------------------------------------------------------------- backfill

  /** Where no segment is served, missed or lagging at `x`, a failed fetch cut the
      stream short before it, and there is no live edge to gap up to. */
  lemma {:induction false} SomethingHappensAt(
    ctx: Ctx, h: seq<MarketEvent>, segs: seq<Segment>, plan: seq<Outcome>, from: int, to: int, x: int)
    requires IsHistory(h) && Chain(segs, from, to) && FaithfulPlan(ctx, h, segs, plan) && from <= x < to
    requires ctx.edge.Some? ==> ctx.edge.value == to
    ensures Served(ctx, segs, plan, x) || Missed(ctx, segs, plan, x) || Lags(ctx, segs, plan, x)
      || (ctx.edge.None? && StopsAt(segs, plan, to) <= x)
  {
    SegmentDataIsSlice(ctx, h, segs[0], plan[0]);
    ChainOrder(segs[1..], segs[0].to, to);
    if x >= segs[0].to && !Fails(plan[0]) {
      SomethingHappensAt(ctx, h, segs[1..], plan[1..], segs[0].to, to, x);
    }
  }

  /** What is missed or lags is not served. */
  lemma {:induction false} ServedExcludesMissed(
    ctx: Ctx, h: seq<MarketEvent>, segs: seq<Segment>, plan: seq<Outcome>, from: int, to: int, x: int)
    requires IsHistory(h) && Chain(segs, from, to) && FaithfulPlan(ctx, h, segs, plan)
    requires ctx.edge.Some? ==> ctx.edge.value == to
    requires Missed(ctx, segs, plan, x) || Lags(ctx, segs, plan, x)
    ensures !Served(ctx, segs, plan, x) && from <= x < to
    ensures !(Missed(ctx, segs, plan, x) && Lags(ctx, segs, plan, x))
  {
    var s, o := segs[0], plan[0];
    SegmentDataIsSlice(ctx, h, s, o);
    ChainOrder(segs[1..], s.to, to);
    if !Fails(o) {
      if Served(ctx, segs[1..], plan[1..], x) {
        ServedIsInRange(ctx, h, segs[1..], plan[1..], s.to, to, x);
      }
      if Missed(ctx, segs[1..], plan[1..], x) || Lags(ctx, segs[1..], plan[1..], x) {
        ServedExcludesMissed(ctx, h, segs[1..], plan[1..], s.to, to, x);
      }
    }
  }

  /** Backfill: at each instant of `[from, edge)` the output holds exactly the
      history, or an emitted gap covers it; unless a fetch that succeeded at the
      live edge lagged behind it, and then if and only if the history has events
      there. */
  lemma BackfillAccountsForEveryInstant(
    ctx: Ctx, h: seq<MarketEvent>, segs: seq<Segment>, plan: seq<Outcome>, from: int, x: int)
    requires IsHistory(h) && ctx.edge.Some? && Chain(segs, from, ctx.edge.value) && FaithfulPlan(ctx, h, segs, plan)
    requires from <= x < ctx.edge.value
    ensures var out := StreamOut(ctx, segs, plan);
      Delivered(out, h, x) || Gapped(out, ctx.instrument, x) <==> !(Lags(ctx, segs, plan, x) && At(h, x) != [])
  {
    var to: int := ctx.edge.value;
    StreamDeliversExactly(ctx, h, segs, plan, from, to, x);
    StreamGapsExactly(ctx, h, segs, plan, from, to, x);
    SomethingHappensAt(ctx, h, segs, plan, from, to, x);
    if Missed(ctx, segs, plan, x) || Lags(ctx, segs, plan, x) {
      ServedExcludesMissed(ctx, h, segs, plan, from, to, x);
    }
  }

  /** No gap is ever announced over something that was delivered. */
  lemma GapsCoverNothingDelivered(
    ctx: Ctx, h: seq<MarketEvent>, segs: seq<Segment>, plan: seq<Outcome>, from: int, to: int, x: int)
    requires IsHistory(h) && Chain(segs, from, to) && FaithfulPlan(ctx, h, segs, plan)
    requires (ctx.edge.Some? ==> ctx.edge.value == to) && Gapped(StreamOut(ctx, segs, plan), ctx.instrument, x)
    ensures At(S.DataOnly(StreamOut(ctx, segs, plan)), x) == []
  {
    StreamDeliversExactly(ctx, h, segs, plan, from, to, x);
    StreamGapsExactly(ctx, h, segs, plan, from, to, x);
    ServedExcludesMissed(ctx, h, segs, plan, from, to, x);
  }

  /** A lagging fetch can lose data without a gap: one trade in the history, none
      of it returned yet. */
  lemma LaggingFetchLeavesAHole()
    ensures var h, i := [At5(1)], Instrument("p", Equity, "X");
      var ctx, segs := Ctx("p", i, true, Some(10)), [Uncovered(0, 10)];
      var out := StreamOut(ctx, segs, [Fetched(map[], [], None, true)]);
      FaithfulPlan(ctx, h, segs, [Fetched(map[], [], None, true)]) && !Delivered(out, h, 5) && !Gapped(out, i, 5)
  {
    var h, i := [At5(1)], Instrument("p", Equity, "X");
    var ctx, segs, plan := Ctx("p", i, true, Some(10)), [Uncovered(0, 10)], [Fetched(map[], [], None, true)];
    assert h[1..] == [] && At(h, 5) == [At5(1)] + [];
    assert plan[0] == Fetched(map[], [], None, true) && segs[0] == Uncovered(0, 10);
    assert Confirmed(segs[0], []) == 0;
    assert LagsBy(ctx, segs[0], plan[0], 5);
    assert Chain(segs[1..], 10, 10) && Chain(segs, 0, 10);
    assert Lags(ctx, segs, plan, 5);
    BackfillAccountsForEveryInstant(ctx, h, segs, plan, 0, 5);
  }

  // ------------------------------------------------------------- plain historical

  /** Where a stream with no live edge stops: the end of the failing segment, or
      of the request. */
  function StopsAt(segs: seq<Segment>, plan: seq<Outcome>, to: int): int
    requires |plan| == |segs|
  {
    if segs == [] then to else if Fails(plan[0]) then segs[0].to else StopsAt(segs[1..], plan[1..], to)
  }

  lemma {:induction false} NothingPastTheStop(
    ctx: Ctx, h: seq<MarketEvent>, segs: seq<Segment>, plan: seq<Outcome>, from: int, to: int, x: int)
    requires IsHistory(h) && ctx.edge.None? && Chain(segs, from, to) && FaithfulPlan(ctx, h, segs, plan)
    requires StopsAt(segs, plan, to) <= x
    ensures !Served(ctx, segs, plan, x) && !Missed(ctx, segs, plan, x) && from <= StopsAt(segs, plan, to) <= to
  {
    if segs != [] {
      SegmentDataIsSlice(ctx, h, segs[0], plan[0]);
      ChainOrder(segs[1..], segs[0].to, to);
      if !Fails(plan[0]) {
        NothingPastTheStop(ctx, h, segs[1..], plan[1..], segs[0].to, to, x);
      }
    }
  }

  /** Without a live edge nothing lags. */
  lemma {:induction false} NothingLagsWithoutEdge(ctx: Ctx, segs: seq<Segment>, plan: seq<Outcome>, x: int)
    requires ctx.edge.None? && |plan| == |segs|
    ensures !Lags(ctx, segs, plan, x)
  {
    if segs != [] {
      NothingLagsWithoutEdge(ctx, segs[1..], plan[1..], x);
    }
  }

  lemma HistoricalInstant(
    ctx: Ctx, h: seq<MarketEvent>, segs: seq<Segment>, plan: seq<Outcome>, from: int, to: int, x: int)
    requires IsHistory(h) && ctx.edge.None? && Chain(segs, from, to) && FaithfulPlan(ctx, h, segs, plan)
    requires from <= x < to
    ensures var out := StreamOut(ctx, segs, plan);
      Delivered(out, h, x) || Gapped(out, ctx.instrument, x) <==> x < StopsAt(segs, plan, to) || At(h, x) == []
  {
    StreamDeliversExactly(ctx, h, segs, plan, from, to, x);
    StreamGapsExactly(ctx, h, segs, plan, from, to, x);
    SomethingHappensAt(ctx, h, segs, plan, from, to, x);
    NothingLagsWithoutEdge(ctx, segs, plan, x);
    if StopsAt(segs, plan, to) <= x {
      NothingPastTheStop(ctx, h, segs, plan, from, to, x);
    }
  }

  /** Plain historical: every instant of the range is delivered or gapped if and
      only if the history is empty past the point where the stream stops; that
      is, past the segment of the first failed fetch, if any. */
  lemma HistoricalIsFullyAccountedIffNothingIsAbandoned(
    ctx: Ctx, h: seq<MarketEvent>, segs: seq<Segment>, plan: seq<Outcome>, from: int, to: int)
    requires IsHistory(h) && ctx.edge.None? && Chain(segs, from, to) && FaithfulPlan(ctx, h, segs, plan)
    ensures var out := StreamOut(ctx, segs, plan);
      (forall x | from <= x < to :: Delivered(out, h, x) || Gapped(out, ctx.instrument, x))
      <==> (forall x | from <= x < to && StopsAt(segs, plan, to) <= x :: At(h, x) == [])
  {
    forall x | from <= x < to
      ensures var out := StreamOut(ctx, segs, plan);
        Delivered(out, h, x) || Gapped(out, ctx.instrument, x) <==> x < StopsAt(segs, plan, to) || At(h, x) == []
    {
      HistoricalInstant(ctx, h, segs, plan, from, to, x);
    }
  }

  lemma FailedSegmentEndsWithItsCause(ctx: Ctx, s: Segment, o: Outcome)
    requires Fails(o)
    ensures var out, c := SegmentOut(ctx, s, o), Confirmed(s, o.events);
      out != [] && out[|out| - 1] == Control(c, c, 0, ProviderError(ctx.provider, o.error.value))
  {
  }

  /** A stream with a failed fetch ends with that fetch's cause, at the end of
      what it confirmed. */
  lemma {:induction false} FailureEndsWithProviderError(ctx: Ctx, segs: seq<Segment>, plan: seq<Outcome>, n: nat)
    requires Planned(segs, plan) && n < |plan| && Fails(plan[n]) && forall m | 0 <= m < n :: !Fails(plan[m])
    ensures var out, c := StreamOut(ctx, segs, plan), Confirmed(segs[n], plan[n].events);
      out != [] && out[|out| - 1] == Control(c, c, 0, ProviderError(ctx.provider, plan[n].error.value))
  {
    if n == 0 {
      FailedSegmentEndsWithItsCause(ctx, segs[0], plan[0]);
    } else {
      assert !Fails(plan[0]) && plan[1..][n - 1] == plan[n] && segs[1..][n - 1] == segs[n];
      FailureEndsWithProviderError(ctx, segs[1..], plan[1..], n - 1);
      LastOfConcat(SegmentOut(ctx, segs[0], plan[0]), StreamOut(ctx, segs[1..], plan[1..]));
    }
  }

  lemma LastOfConcat(a: seq<MarketEvent>, b: seq<MarketEvent>)
    requires b != []
    ensures (a + b)[|a + b| - 1] == b[|b| - 1]
  {
  }
}
