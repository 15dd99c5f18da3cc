/** The read-through historical cache: tiling a request into covered and
    uncovered segments, streaming them, and the coverage claims made on the way.
    The provider is a fixed, time-ordered history; the cache is a map from
    covered instants to the events stored there. */
module ReadThrough {
  import opened Events

  // ------------------------------------------------------------ the provider

  predicate IsHistory(h: seq<MarketEvent>) {
    && (forall n | 0 <= n < |h| :: IsData(h[n]))
    && (forall m, n | 0 <= m < n < |h| :: h[m].sourceTs <= h[n].sourceTs)
  }

  function Keep(e: MarketEvent, f: int, t: int): seq<MarketEvent> {
    if f <= e.sourceTs < t then [e] else []
  }

  /** The events of `h` with `f <= sourceTs < t`, in order. */
  function Slice(h: seq<MarketEvent>, f: int, t: int): seq<MarketEvent> {
    if h == [] then [] else Keep(h[0], f, t) + Slice(h[1..], f, t)
  }

  function At(h: seq<MarketEvent>, x: int): seq<MarketEvent> {
    Slice(h, x, x + 1)
  }

  lemma {:induction false} SliceEmpty(h: seq<MarketEvent>, f: int, t: int)
    requires forall n | 0 <= n < |h| :: !(f <= h[n].sourceTs < t)
    ensures Slice(h, f, t) == []
  {
    if h != [] {
      SliceEmpty(h[1..], f, t);
    }
  }

  lemma {:induction false} SliceSplit(h: seq<MarketEvent>, f: int, m: int, t: int)
    requires IsHistory(h) && f <= m <= t
    ensures Slice(h, f, t) == Slice(h, f, m) + Slice(h, m, t)
  {
    if h != [] {
      SliceSplit(h[1..], f, m, t);
      if h[0].sourceTs >= m {
        SliceEmpty(h[1..], f, m);
      }
      SplitHead(h[0], Slice(h[1..], f, m), Slice(h[1..], m, t), f, m, t);
    }
  }

  lemma SplitHead(e: MarketEvent, a: seq<MarketEvent>, b: seq<MarketEvent>, f: int, m: int, t: int)
    requires f <= m <= t && (e.sourceTs >= m ==> a == [])
    ensures Keep(e, f, t) + (a + b) == (Keep(e, f, m) + a) + (Keep(e, m, t) + b)
  {
    if e.sourceTs < m {
      ConcatAssoc(Keep(e, f, m), a, b);
    }
  }

  lemma {:induction false} SliceConcat(a: seq<MarketEvent>, b: seq<MarketEvent>, f: int, t: int)
    ensures Slice(a + b, f, t) == Slice(a, f, t) + Slice(b, f, t)
  {
    if a == [] {
      assert a + b == b;
    } else {
      assert (a + b)[1..] == a[1..] + b;
      SliceConcat(a[1..], b, f, t);
    }
  }

  lemma {:induction false} SliceIn(h: seq<MarketEvent>, f: int, t: int)
    requires IsHistory(h)
    ensures IsHistory(Slice(h, f, t))
    ensures forall e | e in Slice(h, f, t) :: f <= e.sourceTs < t
  {
    if h != [] {
      SliceIn(h[1..], f, t);
      var rest := Slice(h[1..], f, t);
      forall e | e in rest
        ensures h[0].sourceTs <= e.sourceTs
      {
        SliceFrom(h[1..], f, t, e);
      }
    }
  }

  lemma {:induction false} SliceFrom(h: seq<MarketEvent>, f: int, t: int, e: MarketEvent)
    requires e in Slice(h, f, t)
    ensures e in h
  {
    if e !in Slice(h[1..], f, t) {
      assert h[0] == e;
    } else {
      SliceFrom(h[1..], f, t, e);
    }
  }

  /** Looking at one instant of a slice is looking at that instant. */
  lemma {:induction false} AtSlice(h: seq<MarketEvent>, f: int, t: int, x: int)
    requires f <= x < t
    ensures At(Slice(h, f, t), x) == At(h, x)
  {
    if h != [] {
      AtSlice(h[1..], f, t, x);
      SliceConcat(Keep(h[0], f, t), Slice(h[1..], f, t), x, x + 1);
      assert [h[0]][1..] == [];
    }
  }

  // --------------------------------------------------------------- the cache

  type Cache = map<int, seq<MarketEvent>>

  /** Every covered instant holds exactly the provider's history there. */
  predicate Honest(c: Cache, h: seq<MarketEvent>) {
    forall x | x in c :: c[x] == At(h, x)
  }

  predicate Covers(c: Cache, f: int, t: int) {
    forall x | f <= x < t :: x in c
  }

  /** Other sessions may store more between our steps, never take away. */
  predicate Grows(c: Cache, c': Cache) {
    forall x | x in c :: x in c' && c'[x] == c[x]
  }

  function Replay(c: Cache, f: int, t: int): seq<MarketEvent>
    decreases t - f
  {
    if f >= t then [] else (if f in c then c[f] else []) + Replay(c, f + 1, t)
  }

  function Store(c: Cache, f: int, t: int, batch: seq<MarketEvent>): Cache {
    c + map x | f <= x < t :: At(batch, x)
  }

  lemma {:induction false} ReplayIsSlice(c: Cache, h: seq<MarketEvent>, f: int, t: int)
    requires IsHistory(h) && Honest(c, h) && Covers(c, f, t)
    ensures Replay(c, f, t) == Slice(h, f, t)
    decreases t - f
  {
    if f >= t {
      SliceEmpty(h, f, t);
    } else {
      ReplayIsSlice(c, h, f + 1, t);
      SliceSplit(h, f, f + 1, t);
    }
  }

  // ------------------------------------------------------------------ tiling

  datatype Segment = Covered(from: Timestamp, to: Timestamp) | Uncovered(from: Timestamp, to: Timestamp)

  /** What `gaps()` promises of its spans: ordered, disjoint, in range. */
  predicate OrderedGaps(gaps: seq<GapSpan>, from: int, to: int) {
    && (forall n | 0 <= n < |gaps| :: from <= gaps[n].fromTs <= gaps[n].toTs <= to)
    && (forall m, n | 0 <= m < n < |gaps| :: gaps[m].toTs <= gaps[n].fromTs)
  }

  predicate InGaps(gaps: seq<GapSpan>, x: int) {
    exists n :: 0 <= n < |gaps| && gaps[n].fromTs <= x < gaps[n].toTs
  }

  /** What one reported span contributes: the covered stretch before it, if
      any, and the span itself, if not empty. */
  function Pieces(cursor: Timestamp, g: GapSpan): seq<Segment> {
    if g.fromTs > cursor then
      if g.toTs > g.fromTs then [Covered(cursor, g.fromTs), Uncovered(g.fromTs, g.toTs)] else [Covered(cursor, g.fromTs)]
    else if g.toTs > g.fromTs then [Uncovered(g.fromTs, g.toTs)]
    else []
  }

  function TileFrom(cursor: Timestamp, to: Timestamp, gaps: seq<GapSpan>): seq<Segment>
    decreases |gaps|
  {
    if gaps == [] then (if cursor < to then [Covered(cursor, to)] else [])
    else Pieces(cursor, gaps[0]) + TileFrom(Max(cursor, gaps[0].toTs), to, gaps[1..])
  }

  method Tile(from: Timestamp, to: Timestamp, gaps: seq<GapSpan>) returns (out: seq<Segment>)
    ensures out == TileFrom(from, to, gaps)
  {
    out := [];
    var cursor: Timestamp := from;
    for n := 0 to |gaps|
      invariant out + TileFrom(cursor, to, gaps[n..]) == TileFrom(from, to, gaps)
    {
      var g := gaps[n];
      assert gaps[n..][0] == g && gaps[n..][1..] == gaps[n + 1..];
      ghost var before := out;
      ConcatAssoc(before, Pieces(cursor, g), TileFrom(Max(cursor, g.toTs), to, gaps[n + 1..]));
      if g.fromTs > cursor {
        out := out + [Covered(cursor, g.fromTs)];
      }
      if g.toTs > g.fromTs {
        out := out + [Uncovered(g.fromTs, g.toTs)];
      }
      assert out == before + Pieces(cursor, g);
      cursor := Max(cursor, g.toTs);
    }
    if cursor < to {
      out := out + [Covered(cursor, to)];
    }
  }

  /** Non-empty segments laid end to end from `from` to `to`. */
  predicate Chain(segs: seq<Segment>, from: int, to: int) {
    if segs == [] then from == to
    else segs[0].from == from && from < segs[0].to && Chain(segs[1..], segs[0].to, to)
  }

  predicate InSegment(x: int, s: Segment) {
    s.from <= x < s.to
  }

  lemma ChainCons(s: Segment, rest: seq<Segment>, from: int, to: int)
    requires s.from == from < s.to && Chain(rest, s.to, to)
    ensures Chain([s] + rest, from, to)
  {
    assert ([s] + rest)[1..] == rest;
  }

  lemma {:induction false} TileChains(cursor: Timestamp, to: Timestamp, gaps: seq<GapSpan>)
    requires cursor <= to && OrderedGaps(gaps, cursor, to)
    ensures Chain(TileFrom(cursor, to, gaps), cursor, to)
    decreases |gaps|
  {
    if gaps == [] {
      if cursor < to {
        ChainCons(Covered(cursor, to), [], cursor, to);
      }
    } else {
      TileChains(gaps[0].toTs, to, gaps[1..]);
      PiecesChain(cursor, gaps[0], TileFrom(gaps[0].toTs, to, gaps[1..]), to);
    }
  }

  lemma PiecesChain(cursor: Timestamp, g: GapSpan, rest: seq<Segment>, to: int)
    requires cursor <= g.fromTs <= g.toTs && Chain(rest, g.toTs, to)
    ensures Chain(Pieces(cursor, g) + rest, cursor, to)
  {
    var p := Pieces(cursor, g);
    if |p| == 0 {
      assert p + rest == rest;
    } else if |p| == 1 {
      ChainCons(p[0], rest, p[0].from, to);
    } else {
      ChainCons(p[1], rest, p[1].from, to);
      ChainCons(p[0], [p[1]] + rest, cursor, to);
      assert p + rest == [p[0]] + ([p[1]] + rest);
    }
  }

  lemma {:induction false} TileAgrees(cursor: Timestamp, to: Timestamp, gaps: seq<GapSpan>, s: Segment, x: int)
    requires cursor <= to && OrderedGaps(gaps, cursor, to)
    requires s in TileFrom(cursor, to, gaps) && InSegment(x, s)
    ensures s.Uncovered? <==> InGaps(gaps, x)
    decreases |gaps|
  {
    if gaps != [] {
      var g, rest := gaps[0], TileFrom(gaps[0].toTs, to, gaps[1..]);
      assert forall n | 0 <= n < |gaps[1..]| :: gaps[1..][n] == gaps[n + 1];
      if s in rest {
        TileChains(g.toTs, to, gaps[1..]);
        ChainBounds(rest, g.toTs, to, s);
        TileAgrees(g.toTs, to, gaps[1..], s, x);
        if InGaps(gaps, x) {
          var n :| 0 <= n < |gaps| && gaps[n].fromTs <= x < gaps[n].toTs;
          assert gaps[1..][n - 1] == gaps[n];
        }
      } else {
        assert s == Covered(cursor, g.fromTs) || s == Uncovered(g.fromTs, g.toTs);
      }
    }
  }

  /** Tiling a contract-abiding report partitions the request: its segments lie
      end to end, and an instant is in an uncovered one exactly when the report
      says so. */
  lemma TilePartitionsTheRequest(from: Timestamp, to: Timestamp, gaps: seq<GapSpan>)
    requires from <= to && OrderedGaps(gaps, from, to)
    ensures Chain(TileFrom(from, to, gaps), from, to)
    ensures forall s, x | s in TileFrom(from, to, gaps) && InSegment(x, s) :: s.Uncovered? <==> InGaps(gaps, x)
  {
    TileChains(from, to, gaps);
    forall s, x | s in TileFrom(from, to, gaps) && InSegment(x, s)
      ensures s.Uncovered? <==> InGaps(gaps, x)
    {
      TileAgrees(from, to, gaps, s, x);
    }
  }

  lemma {:induction false} ChainBounds(segs: seq<Segment>, from: int, to: int, s: Segment)
    requires Chain(segs, from, to) && s in segs
    ensures from <= s.from < s.to <= to
  {
    if s != segs[0] {
      ChainBounds(segs[1..], segs[0].to, to, s);
    } else {
      ChainOrder(segs[1..], segs[0].to, to);
    }
  }

  lemma {:induction false} ChainOrder(segs: seq<Segment>, from: int, to: int)
    requires Chain(segs, from, to)
    ensures from <= to
  {
    if segs != [] {
      ChainOrder(segs[1..], segs[0].to, to);
    }
  }
}
