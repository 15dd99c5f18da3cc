/** The flat wire record and its conversions to and from logical events. */
module Payloads {
  import opened Events
  import opened SymbolTables

  /** All variants share one layout; only some fields are meaningful for a given
      `kind` and `controlTag`. */
  datatype DataPayload = DataPayload(
    kind: bv8, controlTag: bv8, interval: bv8, subKind: bv8, active: bv8,
    symbol: SymbolId, seqNo: Seq, sourceTs: Timestamp, rxTs: Timestamp,
    a: I64, b: I64, c: I64, d: I64, size0: U64, size1: U64)

  const TRADE: bv8 := 0
  const QUOTE: bv8 := 1
  const BAR: bv8 := 2
  const CONTROL: bv8 := 3

  const GAP: bv8 := 0
  const SUBSCRIPTION_CHANGED: bv8 := 1
  const SESSION_CLOSING: bv8 := 2

  function IntervalTag(i: BarInterval): bv8 {
    match i
    case OneSecond => 0
    case OneMinute => 1
    case FiveMinute => 2
    case FifteenMinute => 3
    case OneHour => 4
    case OneDay => 5
  }

  function TagInterval(tag: bv8): Option<BarInterval> {
    if tag == 0 then Some(OneSecond)
    else if tag == 1 then Some(OneMinute)
    else if tag == 2 then Some(FiveMinute)
    else if tag == 3 then Some(FifteenMinute)
    else if tag == 4 then Some(OneHour)
    else if tag == 5 then Some(OneDay)
    else None
  }

  function KindTags(k: EventKind): (bv8, bv8) {
    match k
    case Trades => (0, 0)
    case Quotes => (1, 0)
    case Bars(i) => (2, IntervalTag(i))
  }

  function TagsKind(kind: bv8, interval: bv8): Option<EventKind> {
    if kind == 0 then Some(Trades)
    else if kind == 1 then Some(Quotes)
    else if kind == 2 then
      match TagInterval(interval)
      case Some(i) => Some(Bars(i))
      case None => None
    else None
  }

  function Blank(kind: bv8, symbol: SymbolId, ev: MarketEvent): DataPayload {
    DataPayload(kind, 0, 0, 0, 0, symbol, ev.seqNo, ev.sourceTs, ev.rxTs, 0, 0, 0, 0, 0, 0)
  }

  /** `Suppressed` for the controls that ride the diagnostics plane only. */
  datatype ToPodResult = Encoded(pod: DataPayload, table: Table) | Suppressed | Refused(why: Interned)

  /** The instrument an event is interned under, if any. */
  function Named(ev: MarketEvent): Option<Instrument> {
    match ev
    case Control(_, _, _, Gap(_, i, _)) => Some(i)
    case Control(_, _, _, SubscriptionChanged(_, i, _, _)) => Some(i)
    case Control(_, _, _, _) => None
    case _ => Some(ev.instrument)
  }

  function Fill(ev: MarketEvent, id: SymbolId): DataPayload {
    match ev
    case Trade(_, _, _, _, price, size) => Blank(TRADE, id, ev).(a := price, size0 := size)
    case Quote(_, _, _, _, bid, bidSize, ask, askSize) =>
      Blank(QUOTE, id, ev).(a := bid, b := ask, size0 := bidSize, size1 := askSize)
    case Bar(_, interval, _, _, _, o, h, l, c, volume) =>
      Blank(BAR, id, ev).(interval := IntervalTag(interval), a := o, b := h, c := l, d := c, size0 := volume)
    case Control(_, _, _, kind) =>
      match kind
      case Gap(_, _, span) => Blank(CONTROL, id, ev).(controlTag := GAP, a := span.fromTs, b := span.toTs)
      case SubscriptionChanged(_, _, k, active) =>
        Blank(CONTROL, id, ev).(controlTag := SUBSCRIPTION_CHANGED, subKind := KindTags(k).0,
                                interval := KindTags(k).1, active := if active then 1 else 0)
      case _ => Blank(CONTROL, id, ev).(controlTag := SESSION_CLOSING)
  }

  function ToPod(ev: MarketEvent, t: Table): ToPodResult {
    match Named(ev)
    case Some(i) =>
      (match Intern(t, i)
       case Known(t', id) => Encoded(Fill(ev, id), t')
       case why => Refused(why))
    case None =>
      if ev.control.SessionClosing? then Encoded(Fill(ev, CONNECTION), t) else Suppressed
  }

  datatype FromPodResult = Event(ev: MarketEvent) | Unresolved(id: SymbolId) | BadDiscriminant

  function ControlFromPod(p: DataPayload, r: Resolver): FromPodResult {
    if p.controlTag == SESSION_CLOSING then Event(Control(p.sourceTs, p.rxTs, p.seqNo, SessionClosing))
    else if p.controlTag == GAP then
      if p.symbol !in r then Unresolved(p.symbol)
      else Event(Control(p.sourceTs, p.rxTs, p.seqNo, Gap(r[p.symbol].provider, r[p.symbol], GapSpan(p.a, p.b))))
    else if p.controlTag == SUBSCRIPTION_CHANGED then
      if p.symbol !in r then Unresolved(p.symbol)
      else
        match TagsKind(p.subKind, p.interval)
        case None => BadDiscriminant
        case Some(k) =>
          Event(Control(p.sourceTs, p.rxTs, p.seqNo,
                        SubscriptionChanged(r[p.symbol].provider, r[p.symbol], k, p.active != 0)))
    else BadDiscriminant
  }

  function FromPod(p: DataPayload, r: Resolver): FromPodResult {
    if p.kind == TRADE then
      if p.symbol !in r then Unresolved(p.symbol)
      else Event(Trade(r[p.symbol], p.sourceTs, p.rxTs, p.seqNo, p.a, p.size0))
    else if p.kind == QUOTE then
      if p.symbol !in r then Unresolved(p.symbol)
      else Event(Quote(r[p.symbol], p.sourceTs, p.rxTs, p.seqNo, p.a, p.size0, p.b, p.size1))
    else if p.kind == BAR then
      if p.symbol !in r then Unresolved(p.symbol)
      else
        match TagInterval(p.interval)
        case None => BadDiscriminant
        case Some(i) => Event(Bar(r[p.symbol], i, p.sourceTs, p.rxTs, p.seqNo, p.a, p.b, p.c, p.d, p.size0))
    else if p.kind == CONTROL then ControlFromPod(p, r)
    else BadDiscriminant
  }

  /** The provider text of a per-symbol control is not carried: it is recovered
      from the instrument. */
  predicate ProviderMatches(ev: MarketEvent) {
    ev.Control? && (ev.control.Gap? || ev.control.SubscriptionChanged?) ==>
      ev.control.provider == ev.control.instrument.provider
  }

  /** The event as the wire can carry it. */
  function Recovered(ev: MarketEvent): MarketEvent {
    match ev
    case Control(src, rx, n, Gap(_, i, span)) => Control(src, rx, n, Gap(i.provider, i, span))
    case Control(src, rx, n, SubscriptionChanged(_, i, k, active)) =>
      Control(src, rx, n, SubscriptionChanged(i.provider, i, k, active))
    case _ => ev
  }

  lemma RecoveredIffProviderMatches(ev: MarketEvent)
    ensures Recovered(ev) == ev <==> ProviderMatches(ev)
  {
  }

  lemma ControlRoundTrip(ev: MarketEvent, id: SymbolId, r: Resolver)
    requires ev.Control? && (Named(ev).Some? ==> id in r && r[id] == Named(ev).value)
    requires Named(ev).None? ==> ev.control.SessionClosing?
    ensures FromPod(Fill(ev, id), r) == Event(Recovered(ev))
  {
    match ev.control
    case SubscriptionChanged(_, _, k, _) => assert TagsKind(KindTags(k).0, KindTags(k).1) == Some(k);
    case _ =>
  }

  lemma DataRoundTrip(ev: MarketEvent, id: SymbolId, r: Resolver)
    requires IsData(ev) && id in r && r[id] == ev.instrument
    ensures FromPod(Fill(ev, id), r) == Event(ev)
  {
    if ev.Bar? {
      assert TagInterval(IntervalTag(ev.barInterval)) == Some(ev.barInterval);
    }
  }

  /** Every encoded event is read back, up to the provider of a per-symbol
      control, by any agreeing resolver that knows its symbol; so it equals the
      original exactly when that provider is its instrument's. */
  lemma FromPodInvertsToPodIffProviderMatches(ev: MarketEvent, t: Table, r: Resolver)
    requires Dense(t) && ToPod(ev, t).Encoded? && Agrees(r, ToPod(ev, t).table)
    requires Named(ev).Some? ==> ToPod(ev, t).pod.symbol in r
    ensures FromPod(ToPod(ev, t).pod, r) == Event(Recovered(ev))
    ensures FromPod(ToPod(ev, t).pod, r) == Event(ev) <==> ProviderMatches(ev)
  {
    var id := ToPod(ev, t).pod.symbol;
    if Named(ev).Some? {
      InternKeepsDense(t, Named(ev).value);
      assert ToPod(ev, t).pod == Fill(ev, Intern(t, Named(ev).value).id);
    }
    RecoveredIffProviderMatches(ev);
    if IsData(ev) {
      DataRoundTrip(ev, id, r);
    } else {
      ControlRoundTrip(ev, id, r);
    }
  }

  /** Exactly the connection-scoped controls stay off the wire; everything else,
      `SessionClosing` included, is encoded unless its instrument cannot be
      interned, and `SessionClosing` alone travels under the reserved id. */
  lemma WhatGoesOnTheWire(ev: MarketEvent, t: Table)
    requires Dense(t)
    ensures ToPod(ev, t).Suppressed? <==>
      ev.Control? && (ev.control.ProviderConnected? || ev.control.ProviderDisconnected? || ev.control.ProviderError?)
    ensures ev.Control? && ev.control.SessionClosing? ==>
      ToPod(ev, t).Encoded? && ToPod(ev, t).pod.symbol == CONNECTION && ToPod(ev, t).table == t
    ensures ToPod(ev, t).Refused? <==> Named(ev).Some? && !Intern(t, Named(ev).value).Known?
    ensures ToPod(ev, t).Encoded? && Named(ev).Some? ==>
      var id := ToPod(ev, t).pod.symbol;
      id < |ToPod(ev, t).table.reverse| && ToPod(ev, t).table.reverse[id] == Named(ev).value
  {
    if Named(ev).Some? && Intern(t, Named(ev).value).Known? {
      InternKeepsDense(t, Named(ev).value);
    }
  }

  /** The layout a peer of the same wire version relies on: which slot carries
      which field, and the tags of kinds, controls and intervals. */
  lemma WireFormat(ev: MarketEvent, id: SymbolId)
    requires IsData(ev) || ev.control.Gap? || ev.control.SubscriptionChanged?
    ensures var p := Fill(ev, id);
      && p.symbol == id && p.seqNo == ev.seqNo && p.sourceTs == ev.sourceTs && p.rxTs == ev.rxTs
      && (ev.Trade? ==> p.kind == 0 && p.a == ev.price && p.size0 == ev.size)
      && (ev.Quote? ==> p.kind == 1 && p.a == ev.bid && p.b == ev.ask && p.size0 == ev.bidSize && p.size1 == ev.askSize)
      && (ev.Bar? ==> p.kind == 2 && p.a == ev.open && p.b == ev.high && p.c == ev.low && p.d == ev.close && p.size0 == ev.volume)
      && (IsGap(ev) ==> p.kind == 3 && p.controlTag == 0 && p.a == ev.control.span.fromTs && p.b == ev.control.span.toTs)
      && (ev.Control? && ev.control.SubscriptionChanged? ==> p.kind == 3 && p.controlTag == 1 && (p.active == 1 <==> ev.control.active))
    ensures [IntervalTag(OneSecond), IntervalTag(OneMinute), IntervalTag(FiveMinute), IntervalTag(FifteenMinute),
             IntervalTag(OneHour), IntervalTag(OneDay)] == [0, 1, 2, 3, 4, 5]
    ensures KindTags(Trades).0 == 0 && KindTags(Quotes).0 == 1 && KindTags(Bars(OneSecond)).0 == 2
  {
  }
}
