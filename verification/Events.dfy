/** The public event model: instruments, timestamps, `seq`, data events and
    in-band controls, plus the one notion of loss accounting every buffer in
    the pipeline shares: an event is accounted for by itself, or by a `Gap` of
    its instrument whose span contains its span. */
module Events {

  datatype Option<+T> = None | Some(value: T)

  const I64_MIN: int := -0x8000_0000_0000_0000
  const I64_MAX: int := 0x7FFF_FFFF_FFFF_FFFF
  const U64_MAX: int := 0xFFFF_FFFF_FFFF_FFFF

  type I64 = x: int | I64_MIN <= x <= I64_MAX witness 0
  type U64 = x: int | 0 <= x <= U64_MAX witness 0

  /** Nanoseconds since the Unix epoch. */
  type Timestamp = I64

  /** The per-symbol ordering field; the top value is reserved. */
  type Seq = U64
  const SYNTHETIC: Seq := U64_MAX

  datatype AssetClass = Equity | Etf | Crypto

  datatype Instrument = Instrument(provider: string, assetClass: AssetClass, symbol: string)

  datatype BarInterval = OneSecond | OneMinute | FiveMinute | FifteenMinute | OneHour | OneDay

  datatype EventKind = Trades | Quotes | Bars(interval: BarInterval)

  /** Half-open `[fromTs, toTs)`. */
  datatype GapSpan = GapSpan(fromTs: Timestamp, toTs: Timestamp)

  datatype DisconnectCause = Error | Unauthenticated | CompanionUnreachable | Disabled

  datatype ControlKind =
    | ProviderConnected(provider: string)
    | ProviderDisconnected(provider: string, reason: string, cause: DisconnectCause)
    | SubscriptionChanged(provider: string, instrument: Instrument, kind: EventKind, active: bool)
    | Gap(provider: string, instrument: Instrument, span: GapSpan)
    | ProviderError(provider: string, message: string)
    | SessionClosing

  datatype MarketEvent =
    | Trade(instrument: Instrument, sourceTs: Timestamp, rxTs: Timestamp, seqNo: Seq, price: I64, size: U64)
    | Quote(instrument: Instrument, sourceTs: Timestamp, rxTs: Timestamp, seqNo: Seq,
            bid: I64, bidSize: U64, ask: I64, askSize: U64)
    | Bar(instrument: Instrument, barInterval: BarInterval, sourceTs: Timestamp, rxTs: Timestamp, seqNo: Seq,
          open: I64, high: I64, low: I64, close: I64, volume: U64)
    | Control(sourceTs: Timestamp, rxTs: Timestamp, seqNo: Seq, control: ControlKind)

  predicate IsData(ev: MarketEvent) {
    !ev.Control?
  }

  predicate IsGap(ev: MarketEvent) {
    ev.Control? && ev.control.Gap?
  }

  /** Events that a per-instrument `Gap` can stand for: data and `Gap`s. The
      connection-scoped controls and `SubscriptionChanged` are not. */
  predicate Accountable(ev: MarketEvent) {
    IsData(ev) || IsGap(ev)
  }

  function InstrumentOf(ev: MarketEvent): Instrument
    requires Accountable(ev)
  {
    if IsData(ev) then ev.instrument else ev.control.instrument
  }

  function SaturatingSucc(t: Timestamp): Timestamp {
    if t == I64_MAX then I64_MAX else t + 1
  }

  /** A data event spans `[ts, ts + 1)`; a `Gap` contributes its own span. */
  function SpanOf(ev: MarketEvent): GapSpan
    requires Accountable(ev)
  {
    if IsData(ev) then GapSpan(ev.sourceTs, SaturatingSucc(ev.sourceTs)) else ev.control.span
  }

  function Min(a: Timestamp, b: Timestamp): Timestamp {
    if a <= b then a else b
  }

  function Max(a: Timestamp, b: Timestamp): Timestamp {
    if a <= b then b else a
  }

  function Hull(a: GapSpan, b: GapSpan): GapSpan {
    GapSpan(Min(a.fromTs, b.fromTs), Max(a.toTs, b.toTs))
  }

  predicate Within(inner: GapSpan, outer: GapSpan) {
    outer.fromTs <= inner.fromTs && inner.toTs <= outer.toTs
  }

  /** The in-band control that reports a lost span. */
  function GapEvent(seqNo: Seq, instrument: Instrument, span: GapSpan, provider: string): MarketEvent {
    Control(span.fromTs, span.fromTs, seqNo, Gap(provider, instrument, span))
  }

  /** A gap is stamped where its span starts, so it sorts ahead of what follows
      the hole. */
  lemma GapIsStampedAtItsStart(seqNo: Seq, instrument: Instrument, span: GapSpan, provider: string)
    ensures var g := GapEvent(seqNo, instrument, span, provider);
      && IsGap(g) && InstrumentOf(g) == instrument && SpanOf(g) == span && g.control.provider == provider
      && g.sourceTs == span.fromTs && g.rxTs == span.fromTs && g.seqNo == seqNo
  {
  }

  /** `x` accounts for `e`: it is `e`, or a `Gap` of the same instrument whose
      span contains the span of `e`. */
  predicate Accounts(x: MarketEvent, e: MarketEvent) {
    || x == e
    || (IsGap(x) && Accountable(e) && InstrumentOf(x) == InstrumentOf(e) && Within(SpanOf(e), SpanOf(x)))
  }

  /** Folding a gap into a larger gap never loses what the first accounted for. */
  lemma AccountsTransitive(x: MarketEvent, y: MarketEvent, e: MarketEvent)
    requires Accounts(x, y) && Accounts(y, e)
    ensures Accounts(x, e)
  {
  }

  /** What a consumer can conclude from a `Gap` it was given: for a data event
      below the last representable instant, being accounted for is the same as
      lying inside the announced half-open span. */
  predicate InSpan(ts: Timestamp, span: GapSpan) {
    span.fromTs <= ts < span.toTs
  }

  lemma GapAccountsIffInSpan(g: MarketEvent, e: MarketEvent)
    requires IsGap(g) && IsData(e) && InstrumentOf(g) == InstrumentOf(e)
    requires e.sourceTs < I64_MAX
    ensures Accounts(g, e) <==> InSpan(e.sourceTs, g.control.span)
  {
  }

  function SeqAt(i: Instrument, ev: MarketEvent): seq<int> {
    if Accountable(ev) && InstrumentOf(ev) == i then [ev.seqNo as int] else []
  }

  /** `seq` values of the accountable events of one instrument, in order. */
  function SeqsOf(i: Instrument, evs: seq<MarketEvent>): seq<int> {
    if evs == [] then [] else SeqAt(i, evs[0]) + SeqsOf(i, evs[1..])
  }

  lemma SeqsOfCons(i: Instrument, ev: MarketEvent, evs: seq<MarketEvent>)
    ensures SeqsOf(i, [ev] + evs) == SeqAt(i, ev) + SeqsOf(i, evs)
  {
    assert ([ev] + evs)[1..] == evs;
  }

  lemma SeqsOfOne(i: Instrument, ev: MarketEvent)
    ensures SeqsOf(i, [ev]) == SeqAt(i, ev)
  {
    assert [ev][1..] == [];
  }

  lemma SeqsOfSnoc(i: Instrument, evs: seq<MarketEvent>, ev: MarketEvent)
    ensures SeqsOf(i, evs + [ev]) == SeqsOf(i, evs) + SeqAt(i, ev)
  {
    SeqsOfConcat(i, evs, [ev]);
    SeqsOfOne(i, ev);
  }

  lemma {:induction false} SeqsOfConcat(i: Instrument, a: seq<MarketEvent>, b: seq<MarketEvent>)
    ensures SeqsOf(i, a + b) == SeqsOf(i, a) + SeqsOf(i, b)
  {
    if a == [] {
      assert a + b == b;
    } else {
      assert (a + b)[1..] == a[1..] + b;
      SeqsOfConcat(i, a[1..], b);
    }
  }

  lemma {:induction false} SeqsOfElsewhere(i: Instrument, evs: seq<MarketEvent>)
    requires forall e | e in evs && Accountable(e) :: InstrumentOf(e) != i
    ensures SeqsOf(i, evs) == []
  {
    if evs != [] {
      SeqsOfElsewhere(i, evs[1..]);
    }
  }

  predicate Increasing(s: seq<int>) {
    forall i, j | 0 <= i < j < |s| :: s[i] < s[j]
  }

  predicate AllBelow(s: seq<int>, bound: int) {
    forall i | 0 <= i < |s| :: s[i] < bound
  }

  lemma ConcatAssoc<T>(a: seq<T>, b: seq<T>, c: seq<T>)
    ensures a + (b + c) == (a + b) + c
  {
  }

  /** One element more, seen from position `k`. */
  lemma SuffixSnoc<T>(s: seq<T>, k: nat)
    requires k < |s|
    ensures s[..|s| - 1][k..] + [s[|s| - 1]] == s[k..]
    ensures k < |s| - 1 ==> s[..|s| - 1][k..][1..] + [s[|s| - 1]] == s[k + 1..] && s[..|s| - 1][k..][0] == s[k]
    ensures s[..|s| - 1][..k] == s[..k]
  {
  }

  lemma IncreasingPrefix(a: seq<int>, b: seq<int>)
    requires Increasing(a + b)
    ensures Increasing(a)
  {
    assert forall i | 0 <= i < |a| :: (a + b)[i] == a[i];
  }

  lemma AllBelowWithout(a: seq<int>, x: seq<int>, b: seq<int>, bound: int)
    requires AllBelow(a + x + b, bound)
    ensures AllBelow(a + b, bound)
  {
    var whole, part := a + x + b, a + b;
    forall i | 0 <= i < |part|
      ensures part[i] < bound
    {
      assert part[i] == whole[if i < |a| then i else i + |x|];
    }
  }

  lemma IncreasingWithout(a: seq<int>, x: seq<int>, b: seq<int>)
    requires Increasing(a + x + b)
    ensures Increasing(a + b)
  {
    var whole, part := a + x + b, a + b;
    forall i, j | 0 <= i < j < |part|
      ensures part[i] < part[j]
    {
      var i' := if i < |a| then i else i + |x|;
      var j' := if j < |a| then j else j + |x|;
      assert whole[i'] == part[i] && whole[j'] == part[j];
    }
  }
}
