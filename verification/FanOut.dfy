/** The authoritative controller's consumer-facing side: one bounded channel
    per referrer, `try_send` only, and a pending per-instrument gap for what a
    full channel refused. */
module FanOuts {
  import opened Events

  // ---------------------------------------------------------------- channels

  /** A bounded mpsc channel. `accepted` is everything ever queued, oldest
      first; the receiver has taken the first `taken` of them. `closed` once the
      receiver is dropped. */
  datatype Channel = Channel(capacity: nat, accepted: seq<MarketEvent>, taken: nat, closed: bool)
  {
    predicate Valid() {
      taken <= |accepted| <= taken + capacity
    }

    function Queue(): seq<MarketEvent>
      requires Valid()
    {
      accepted[taken..]
    }
  }

  datatype TrySendResult = Sent(channel: Channel) | Full | Closed

  function TrySend(ch: Channel, ev: MarketEvent): TrySendResult {
    if ch.closed then Closed
    else if |ch.accepted| >= ch.taken + ch.capacity then Full
    else Sent(ch.(accepted := ch.accepted + [ev]))
  }

  // ------------------------------------------------------------- pending gap

  /** Loss owed to one backed-up referrer, not yet queued to it. */
  datatype PendingGap = PendingGap(instrument: Instrument, provider: string, firstSeq: Seq, span: GapSpan)
  {
    function ToEvent(): MarketEvent {
      GapEvent(firstSeq, instrument, span, provider)
    }
  }

  datatype GapCoords = GapCoords(instrument: Instrument, span: GapSpan, provider: string, seqNo: Seq)

  /** What a dropped event contributes to a gap; `None` for a control with no
      per-instrument identity. */
  function CoordsOf(ev: MarketEvent): Option<GapCoords> {
    if IsGap(ev) then Some(GapCoords(ev.control.instrument, ev.control.span, ev.control.provider, ev.seqNo))
    else if IsData(ev) then Some(GapCoords(ev.instrument, SpanOf(ev), ev.instrument.provider, ev.seqNo))
    else None
  }

  function AbsorbDrop(pending: Option<PendingGap>, ev: MarketEvent): Option<PendingGap> {
    match CoordsOf(ev)
    case None => pending
    case Some(c) =>
      match pending
      case Some(p) => Some(p.(span := Hull(p.span, c.span)))
      case None => Some(PendingGap(c.instrument, c.provider, c.seqNo, c.span))
  }

  /** A dropped event is inside the announced span of the gap that absorbed it
      exactly when its timestamp is below the last representable instant: the
      saturating `ts + 1` leaves an empty span at `i64::MAX`. */
  lemma DroppedEventIsInGapIffBelowMax(pending: Option<PendingGap>, ev: MarketEvent)
    requires IsData(ev)
    ensures AbsorbDrop(pending, ev).Some?
    ensures InSpan(ev.sourceTs, AbsorbDrop(pending, ev).value.span) <==> ev.sourceTs < I64_MAX
  {
    var p := AbsorbDrop(pending, ev).value;
    assert p.span.fromTs <= ev.sourceTs <= p.span.toTs <= I64_MAX;
    assert ev.sourceTs < I64_MAX ==> SaturatingSucc(ev.sourceTs) == ev.sourceTs + 1 <= p.span.toTs;
  }

  // ---------------------------------------------------------------- referrer

  datatype Referrer = Referrer(tx: Channel, pending: Option<PendingGap>)

  datatype Offered = Keep(referrer: Referrer) | Dead

  function PushOrAbsorb(r: Referrer, ev: MarketEvent): Offered {
    match TrySend(r.tx, ev)
    case Sent(ch) => Keep(r.(tx := ch))
    case Full => Keep(r.(pending := AbsorbDrop(r.pending, ev)))
    case Closed => Dead
  }

  /** One referrer's share of a fan-out: flush the gap owed first, then send. */
  function Offer(r: Referrer, ev: MarketEvent): Offered {
    match r.pending
    case None => PushOrAbsorb(r, ev)
    case Some(p) =>
      match TrySend(r.tx, p.ToEvent())
      case Sent(ch) => PushOrAbsorb(Referrer(ch, None), ev)
      case Full => Keep(r.(pending := AbsorbDrop(r.pending, ev)))
      case Closed => Dead
  }

  /** Everything a referrer has been, or is still owed: its channel's history
      and the gap not yet queued. */
  predicate Owns(r: Referrer, x: MarketEvent) {
    || x in r.tx.accepted
    || (r.pending.Some? && r.pending.value.ToEvent() == x)
  }

  ghost predicate Told(r: Referrer, e: MarketEvent) {
    exists x :: Owns(r, x) && Accounts(x, e)
  }

  predicate PendingFor(r: Referrer, i: Instrument) {
    r.pending.Some? ==> r.pending.value.instrument == i
  }

  /** What a fan-out newly queued to a referrer it keeps. */
  function Added(r: Referrer, ev: MarketEvent): (added: seq<MarketEvent>)
    requires Offer(r, ev).Keep?
    ensures Offer(r, ev).referrer.tx == r.tx.(accepted := r.tx.accepted + added)
  {
    match r.pending
    case None => if TrySend(r.tx, ev).Sent? then [ev] else []
    case Some(p) =>
      match TrySend(r.tx, p.ToEvent())
      case Sent(ch) => if TrySend(ch, ev).Sent? then [p.ToEvent(), ev] else [p.ToEvent()]
      case _ => []
  }

  /** What the referrer newly holds, or is newly owed, after a fan-out. */
  ghost predicate Gains(r: Referrer, ev: MarketEvent, y: MarketEvent)
    requires Offer(r, ev).Keep?
  {
    var r' := Offer(r, ev).referrer;
    y in Added(r, ev) || (r'.pending.Some? && r'.pending.value.ToEvent() == y)
  }

  /** The gap owed before and the offered event are each queued or folded into
      the gap still owed; nothing else is queued. */
  lemma OfferAccountsForAll(r: Referrer, ev: MarketEvent, i: Instrument)
    requires Offer(r, ev).Keep?
    requires PendingFor(r, i) && (Accountable(ev) ==> InstrumentOf(ev) == i)
    ensures PendingFor(Offer(r, ev).referrer, i)
    ensures r.pending.Some? ==> exists y :: Gains(r, ev, y) && Accounts(y, r.pending.value.ToEvent())
    ensures Accountable(ev) ==> exists y :: Gains(r, ev, y) && Accounts(y, ev)
    ensures forall y | y in Added(r, ev) :: y == ev || (r.pending.Some? && y == r.pending.value.ToEvent())
  {
    var r' := Offer(r, ev).referrer;
    if r'.pending.Some? {
      assert Gains(r, ev, r'.pending.value.ToEvent());
    }
    if r.pending.Some? && TrySend(r.tx, r.pending.value.ToEvent()).Sent? {
      assert Added(r, ev)[0] == r.pending.value.ToEvent();
      assert Gains(r, ev, r.pending.value.ToEvent());
    }
    if ev in Added(r, ev) {
      assert Gains(r, ev, ev);
    }
  }

  /** A fan-out never takes evidence away from a referrer it keeps, and the
      offered event is itself accounted for afterwards. */
  lemma OfferLosesNothing(r: Referrer, ev: MarketEvent, i: Instrument)
    requires Offer(r, ev).Keep?
    requires PendingFor(r, i) && (Accountable(ev) ==> InstrumentOf(ev) == i)
    ensures PendingFor(Offer(r, ev).referrer, i)
    ensures forall e | Accountable(e) && Told(r, e) :: Told(Offer(r, ev).referrer, e)
    ensures Accountable(ev) ==> Told(Offer(r, ev).referrer, ev)
  {
    var r' := Offer(r, ev).referrer;
    OfferAccountsForAll(r, ev, i);
    forall y | Gains(r, ev, y)
      ensures Owns(r', y)
    {
    }
    forall e | Accountable(e) && Told(r, e)
      ensures Told(r', e)
    {
      var x :| Owns(r, x) && Accounts(x, e);
      if x in r.tx.accepted {
        assert Owns(r', x);
      } else {
        var y :| Gains(r, ev, y) && Accounts(y, x);
        assert Owns(r', y);
        AccountsTransitive(y, x, e);
      }
    }
    if Accountable(ev) {
      var y :| Gains(r, ev, y) && Accounts(y, ev);
      assert Owns(r', y);
    }
  }

  // --------------------------------------------------- exactly what is queued

  function Free(ch: Channel): int {
    ch.capacity - (|ch.accepted| - ch.taken)
  }

  /** The gap owed, as it would be queued. */
  function Owed(r: Referrer): seq<MarketEvent> {
    if r.pending.Some? then [r.pending.value.ToEvent()] else []
  }

  /** What one fan-out does, by the room there is: the owed gap goes first, then
      the event; what does not fit is owed. A closed channel drops the referrer. */
  lemma OfferByRoom(r: Referrer, ev: MarketEvent)
    ensures r.tx.closed <==> Offer(r, ev).Dead?
    ensures !r.tx.closed && Free(r.tx) >= |Owed(r)| + 1 ==>
      Offer(r, ev) == Keep(Referrer(r.tx.(accepted := r.tx.accepted + (Owed(r) + [ev])), None))
    ensures !r.tx.closed && r.pending.Some? && Free(r.tx) == 1 ==>
      Offer(r, ev) == Keep(Referrer(r.tx.(accepted := r.tx.accepted + Owed(r)), OwedAfter(None, ev)))
    ensures !r.tx.closed && Free(r.tx) <= 0 ==> Offer(r, ev) == Keep(Referrer(r.tx, OwedAfter(r.pending, ev)))
  {
    ConcatAssoc(r.tx.accepted, Owed(r), [ev]);
    assert r.tx.accepted + [] == r.tx.accepted;
  }

  /** What is owed once `ev` could not be queued: the first lost event's `seq`,
      instrument and provider, over the hull of what was lost. */
  function OwedAfter(before: Option<PendingGap>, ev: MarketEvent): Option<PendingGap> {
    if !Accountable(ev) then before
    else if before.Some? then
      Some(PendingGap(before.value.instrument, before.value.provider, before.value.firstSeq,
                      Hull(before.value.span, SpanOf(ev))))
    else
      Some(PendingGap(InstrumentOf(ev), if IsGap(ev) then ev.control.provider else ev.instrument.provider,
                      ev.seqNo, SpanOf(ev)))
  }

  // ----------------------------------------------------------------- fan-out

  type SubscriberId = nat

  datatype FanState = FanState(
    subscribers: map<SubscriberId, Referrer>,
    lastChanged: Option<MarketEvent>,
    hadSubscriber: bool)

  const Empty: FanState := FanState(map[], None, false)

  predicate IsActivation(ev: MarketEvent) {
    ev.Control? && ev.control.SubscriptionChanged? && ev.control.active
  }

  /** The cached activation is replayed to a joiner, best effort. */
  function Joined(ch: Channel, last: Option<MarketEvent>): Channel {
    if last.Some? && TrySend(ch, last.value).Sent? then TrySend(ch, last.value).channel else ch
  }

  function Add(s: FanState, id: SubscriberId, ch: Channel): FanState {
    FanState(s.subscribers[id := Referrer(Joined(ch, s.lastChanged), None)], s.lastChanged, true)
  }

  function Remove(s: FanState, id: SubscriberId): FanState {
    s.(subscribers := s.subscribers - {id})
  }

  function OfferAll(m: map<SubscriberId, Referrer>, ev: MarketEvent): map<SubscriberId, Referrer> {
    map id | id in m && Offer(m[id], ev).Keep? :: Offer(m[id], ev).referrer
  }

  function Emit(s: FanState, ev: MarketEvent): FanState {
    FanState(
      OfferAll(s.subscribers, ev),
      if IsActivation(ev) then Some(ev) else s.lastChanged,
      s.hadSubscriber)
  }

  class FanOut {
    var subscribers: map<SubscriberId, Referrer>
    var lastSubscriptionChanged: Option<MarketEvent>
    var hadSubscriber: bool

    function State(): FanState
      reads this
    {
      FanState(subscribers, lastSubscriptionChanged, hadSubscriber)
    }

    constructor ()
      ensures State() == Empty
    {
      subscribers := map[];
      lastSubscriptionChanged := None;
      hadSubscriber := false;
    }

    method AddSubscriber(id: SubscriberId, sender: Channel)
      modifies this
      ensures State() == Add(old(State()), id, sender)
      ensures hadSubscriber && id in subscribers && subscribers[id].pending.None?
      ensures subscribers[id].tx.accepted == sender.accepted +
        if lastSubscriptionChanged.Some? && !sender.closed && Free(sender) >= 1 then [lastSubscriptionChanged.value] else []
      ensures lastSubscriptionChanged == old(lastSubscriptionChanged)
    {
      hadSubscriber := true;
      var tx := sender;
      if lastSubscriptionChanged.Some? {
        match TrySend(sender, lastSubscriptionChanged.value)
        case Sent(ch) => tx := ch;
        case _ =>
      }
      subscribers := subscribers[id := Referrer(tx, None)];
    }

    method RemoveSubscriber(id: SubscriberId)
      modifies this`subscribers
      ensures State() == Remove(old(State()), id)
      ensures id !in subscribers && forall k | k in old(subscribers) && k != id :: k in subscribers && subscribers[k] == old(subscribers)[k]
    {
      subscribers := subscribers - {id};
    }

    method ShouldTeardown() returns (r: bool)
      ensures r <==> hadSubscriber && subscribers == map[]
    {
      r := hadSubscriber && |subscribers| == 0;
    }

    /** Visits the referrers in an arbitrary order, collects the dead ones and
        removes them afterwards; the result does not depend on the order. */
    method Fanout(ev: MarketEvent)
      modifies this
      ensures State() == Emit(old(State()), ev)
    {
      if IsActivation(ev) {
        lastSubscriptionChanged := Some(ev);
      }
      var dead: set<SubscriberId> := {};
      var todo := subscribers.Keys;
      ghost var before := subscribers;
      while todo != {}
        invariant todo <= before.Keys == subscribers.Keys
        invariant dead <= before.Keys - todo
        invariant lastSubscriptionChanged == Emit(old(State()), ev).lastChanged
        invariant hadSubscriber == old(hadSubscriber)
        invariant forall id | id in todo :: subscribers[id] == before[id]
        invariant forall id | id in before.Keys - todo ::
          if id in dead then Offer(before[id], ev).Dead? else Offer(before[id], ev) == Keep(subscribers[id])
      {
        var id :| id in todo;
        todo := todo - {id};
        match Offer(subscribers[id], ev)
        case Keep(r) => subscribers := subscribers[id := r];
        case Dead => dead := dead + {id};
      }
      subscribers := subscribers - dead;
      assert subscribers == OfferAll(before, ev);
    }
  }

  // -------------------------------------------------------------------- runs

  /** What can happen around one fan-out: referrers join and leave, the source
      emits, and each receiver drains or hangs up on its own. */
  datatype Op =
    | JoinOp(id: SubscriberId, capacity: nat)
    | LeaveOp(id: SubscriberId)
    | EmitOp(ev: MarketEvent)
    | DrainOp(id: SubscriberId)
    | HangUpOp(id: SubscriberId)

  function Drained(ch: Channel): Channel {
    if ch.taken < |ch.accepted| then ch.(taken := ch.taken + 1) else ch
  }

  function Apply(s: FanState, op: Op): FanState {
    match op
    case JoinOp(id, cap) => Add(s, id, Channel(cap, [], 0, false))
    case LeaveOp(id) => Remove(s, id)
    case EmitOp(ev) => Emit(s, ev)
    case DrainOp(id) =>
      if id in s.subscribers
      then s.(subscribers := s.subscribers[id := s.subscribers[id].(tx := Drained(s.subscribers[id].tx))])
      else s
    case HangUpOp(id) =>
      if id in s.subscribers
      then s.(subscribers := s.subscribers[id := s.subscribers[id].(tx := s.subscribers[id].tx.(closed := true))])
      else s
  }

  function Run(s: FanState, ops: seq<Op>): FanState
    decreases |ops|
  {
    if ops == [] then s else Apply(Run(s, ops[..|ops| - 1]), ops[|ops| - 1])
  }

  function Emitted(ops: seq<Op>): seq<MarketEvent> {
    if ops == [] then []
    else Emitted(ops[..|ops| - 1]) + (var op := ops[|ops| - 1]; if op.EmitOp? then [op.ev] else [])
  }

  /** The source stamps `n, n + 1, ...` in delivery order. */
  predicate Stamped(evs: seq<MarketEvent>, n: nat) {
    forall i | 0 <= i < |evs| :: evs[i].seqNo == n + i
  }

  function Numbers(evs: seq<MarketEvent>): seq<int> {
    seq(|evs|, i requires 0 <= i < |evs| => evs[i].seqNo as int)
  }

  // --- order

  predicate OrderedReferrer(r: Referrer, next: int) {
    && Increasing(Numbers(r.tx.accepted))
    && AllBelow(Numbers(r.tx.accepted), if r.pending.Some? then r.pending.value.firstSeq else next)
    && (r.pending.Some? ==> r.pending.value.firstSeq < next)
  }

  predicate OrderedFan(s: FanState, next: int) {
    && (forall id | id in s.subscribers :: OrderedReferrer(s.subscribers[id], next))
    && (s.lastChanged.Some? ==> s.lastChanged.value.seqNo < next)
  }

  lemma NumbersSnoc(evs: seq<MarketEvent>, ev: MarketEvent)
    requires Increasing(Numbers(evs)) && AllBelow(Numbers(evs), ev.seqNo)
    ensures Increasing(Numbers(evs + [ev])) && AllBelow(Numbers(evs + [ev]), ev.seqNo + 1)
  {
    assert Numbers(evs + [ev]) == Numbers(evs) + [ev.seqNo as int];
  }

  lemma OfferKeepsOrder(r: Referrer, ev: MarketEvent)
    requires OrderedReferrer(r, ev.seqNo) && Offer(r, ev).Keep?
    ensures OrderedReferrer(Offer(r, ev).referrer, ev.seqNo + 1)
  {
    if r.pending.Some? {
      var g := r.pending.value.ToEvent();
      NumbersSnoc(r.tx.accepted, g);
      assert Increasing(Numbers(r.tx.accepted + [g])) && AllBelow(Numbers(r.tx.accepted + [g]), ev.seqNo);
      NumbersSnoc(r.tx.accepted + [g], ev);
    } else {
      NumbersSnoc(r.tx.accepted, ev);
    }
  }

  lemma ApplyKeepsOrder(s: FanState, op: Op, next: int)
    requires OrderedFan(s, next) && (op.EmitOp? ==> op.ev.seqNo == next)
    ensures OrderedFan(Apply(s, op), if op.EmitOp? then next + 1 else next)
  {
    match op
    case EmitOp(ev) =>
      forall id | id in Apply(s, op).subscribers
        ensures OrderedReferrer(Apply(s, op).subscribers[id], next + 1)
      {
        OfferKeepsOrder(s.subscribers[id], ev);
      }
    case JoinOp(id, cap) =>
      if s.lastChanged.Some? {
        assert Numbers([s.lastChanged.value]) == [s.lastChanged.value.seqNo as int];
      }
    case _ =>
  }

  lemma {:induction false} RunKeepsOrder(ops: seq<Op>)
    requires Stamped(Emitted(ops), 0)
    ensures OrderedFan(Run(Empty, ops), |Emitted(ops)|)
  {
    if ops != [] {
      var front, op := ops[..|ops| - 1], ops[|ops| - 1];
      forall i | 0 <= i < |Emitted(front)|
        ensures Emitted(front)[i].seqNo == i
      {
        assert Emitted(ops)[i] == Emitted(front)[i];
      }
      RunKeepsOrder(front);
      if op.EmitOp? {
        assert Emitted(ops)[|Emitted(front)|] == op.ev;
      }
      ApplyKeepsOrder(Run(Empty, front), op, |Emitted(front)|);
    }
  }

  /** In every run over a source that stamps 0, 1, 2, ..., every referrer is
      queued strictly increasing `seq` values, synthesised gaps and the
      late-join replay included, and the gap it is still owed comes later. */
  lemma EveryReferrerSeesIncreasingSeq(ops: seq<Op>, id: SubscriberId)
    requires Stamped(Emitted(ops), 0) && id in Run(Empty, ops).subscribers
    ensures var r := Run(Empty, ops).subscribers[id];
      && Increasing(Numbers(r.tx.accepted))
      && (r.pending.Some? ==> AllBelow(Numbers(r.tx.accepted), r.pending.value.firstSeq))
  {
    RunKeepsOrder(ops);
  }

  // --- provenance and agreement

  /** Either a source event verbatim, or a gap that starts at the `seq` of a
      source event. */
  ghost predicate Genuine(x: MarketEvent, source: seq<MarketEvent>) {
    || x in source
    || (IsGap(x) && exists e :: e in source && Accountable(e) && e.seqNo == x.seqNo)
  }

  ghost predicate GenuineFan(s: FanState, source: seq<MarketEvent>) {
    && (forall id, x | id in s.subscribers && Owns(s.subscribers[id], x) :: Genuine(x, source))
    && (s.lastChanged.Some? ==> s.lastChanged.value in source)
  }

  lemma {:induction false} RunIsGenuine(ops: seq<Op>)
    ensures GenuineFan(Run(Empty, ops), Emitted(ops))
  {
    if ops != [] {
      var front, op := ops[..|ops| - 1], ops[|ops| - 1];
      RunIsGenuine(front);
      var s, s', old_, new_ := Run(Empty, front), Run(Empty, ops), Emitted(front), Emitted(ops);
      forall x | Genuine(x, old_)
        ensures Genuine(x, new_)
      {
        if x !in old_ {
          var e :| e in old_ && Accountable(e) && e.seqNo == x.seqNo;
          assert e in new_;
        }
      }
      forall id, x | id in s'.subscribers && Owns(s'.subscribers[id], x)
        ensures Genuine(x, new_)
      {
        if op.EmitOp? {
          assert op.ev in new_;
          var r := s.subscribers[id];
          if !Owns(r, x) && x != op.ev {
            var p := s'.subscribers[id].pending.value;
            if r.pending.Some? && p.firstSeq == r.pending.value.firstSeq {
              assert Owns(r, r.pending.value.ToEvent());
              assert Genuine(r.pending.value.ToEvent(), old_);
              if r.pending.value.ToEvent() in old_ {
                assert Accountable(r.pending.value.ToEvent());
              }
            }
          }
        } else if id in s.subscribers && !(op.JoinOp? && op.id == id) {
          assert Owns(s.subscribers[id], x);
        }
      }
    }
  }

  /** Any two referrers agree on every source event they both receive: equal
      `seq` means the same event, unless one of them is a gap synthesised for
      that referrer's own loss. */
  lemma ReferrersAgree(ops: seq<Op>, a: SubscriberId, b: SubscriberId, x: MarketEvent, y: MarketEvent)
    requires Stamped(Emitted(ops), 0)
    requires a in Run(Empty, ops).subscribers && b in Run(Empty, ops).subscribers
    requires x in Run(Empty, ops).subscribers[a].tx.accepted && y in Run(Empty, ops).subscribers[b].tx.accepted
    requires x.seqNo == y.seqNo
    ensures x == y || (IsGap(x) && x !in Emitted(ops)) || (IsGap(y) && y !in Emitted(ops))
  {
    RunIsGenuine(ops);
    var s := Run(Empty, ops);
    assert Owns(s.subscribers[a], x) && Owns(s.subscribers[b], y);
    assert Genuine(x, Emitted(ops)) && Genuine(y, Emitted(ops));
  }

  // --- independence

  predicate Concerns(op: Op, id: SubscriberId) {
    op.EmitOp? || op.id == id
  }

  function Project(ops: seq<Op>, id: SubscriberId): seq<Op> {
    if ops == [] then []
    else Project(ops[..|ops| - 1], id) + (if Concerns(ops[|ops| - 1], id) then [ops[|ops| - 1]] else [])
  }

  function Alone(s: FanState, id: SubscriberId): FanState {
    s.(subscribers := map k | k in s.subscribers && k == id :: s.subscribers[k])
  }

  lemma ApplyCommutesWithAlone(s: FanState, t: FanState, op: Op, id: SubscriberId)
    requires Concerns(op, id)
    requires Alone(s, id).subscribers == t.subscribers && s.lastChanged == t.lastChanged
    ensures Alone(Apply(s, op), id).subscribers == Apply(t, op).subscribers
    ensures Apply(s, op).lastChanged == Apply(t, op).lastChanged
  {
  }

  /** What one referrer receives is independent of all others: a run seen by
      `id` is the run in which nobody else ever joined, drained or hung up. */
  lemma {:induction false} ReferrerIsIndependentOfOthers(ops: seq<Op>, id: SubscriberId)
    ensures Alone(Run(Empty, ops), id).subscribers == Run(Empty, Project(ops, id)).subscribers
    ensures Run(Empty, ops).lastChanged == Run(Empty, Project(ops, id)).lastChanged
  {
    if ops != [] {
      var front, op := ops[..|ops| - 1], ops[|ops| - 1];
      ReferrerIsIndependentOfOthers(front, id);
      if Concerns(op, id) {
        var p := Project(front, id) + [op];
        assert p[..|p| - 1] == Project(front, id);
        assert Project(ops, id) == p;
        ApplyCommutesWithAlone(Run(Empty, front), Run(Empty, Project(front, id)), op, id);
      } else {
        assert Project(ops, id) == Project(front, id);
      }
    }
  }

  // --- a referrer that keeps up

  lemma RunSnoc(ops: seq<Op>, n: nat)
    requires n < |ops|
    ensures Run(Empty, ops[..n + 1]) == Apply(Run(Empty, ops[..n]), ops[n])
    ensures Emitted(ops[..n + 1]) == Emitted(ops[..n]) + if ops[n].EmitOp? then [ops[n].ev] else []
  {
    assert ops[..n + 1][..n] == ops[..n];
  }

  /** Attached from position `from` on, with room for one more event at every
      emission, and owed nothing to begin with. */
  predicate KeepsUp(ops: seq<Op>, id: SubscriberId, from: nat)
    requires from <= |ops|
  {
    && StaysFrom(ops, id, from) && Run(Empty, ops[..from]).subscribers[id].pending.None?
    && forall n | from <= n < |ops| && ops[n].EmitOp? ::
         id in Run(Empty, ops[..n]).subscribers && Free(Run(Empty, ops[..n]).subscribers[id].tx) >= 1
  }

  /** Everything emitted since, verbatim. */
  predicate Verbatim(ops: seq<Op>, id: SubscriberId, from: nat, upTo: nat)
    requires from <= upTo <= |ops|
  {
    && id in Run(Empty, ops[..from]).subscribers && id in Run(Empty, ops[..upTo]).subscribers
    && Run(Empty, ops[..upTo]).subscribers[id].pending.None?
    && Emitted(ops[..from]) <= Emitted(ops[..upTo])
    && Run(Empty, ops[..upTo]).subscribers[id].tx.accepted
       == Run(Empty, ops[..from]).subscribers[id].tx.accepted + Emitted(ops[..upTo])[|Emitted(ops[..from])|..]
  }

  lemma KeepingUpStep(s: FanState, op: Op, id: SubscriberId)
    requires id in s.subscribers && id in Apply(s, op).subscribers && s.subscribers[id].pending.None?
    requires !(op.JoinOp? && op.id == id) && (op.EmitOp? ==> Free(s.subscribers[id].tx) >= 1)
    ensures var r' := Apply(s, op).subscribers[id];
      r'.pending.None? && r'.tx.accepted == s.subscribers[id].tx.accepted + if op.EmitOp? then [op.ev] else []
  {
    if op.EmitOp? {
      OfferByRoom(s.subscribers[id], op.ev);
    }
  }

  /** A referrer that always has room when something is emitted is queued every
      emitted event verbatim, controls included, and never owed a gap. */
  lemma {:induction false} KeepingUpMissesNothing(ops: seq<Op>, id: SubscriberId, from: nat, upTo: nat)
    requires from <= upTo <= |ops| && KeepsUp(ops, id, from)
    ensures Verbatim(ops, id, from, upTo)
    decreases upTo
  {
    assert id in Run(Empty, ops[..from]).subscribers && id in Run(Empty, ops[..upTo]).subscribers;
    if from < upTo {
      var n := upTo - 1;
      KeepingUpMissesNothing(ops, id, from, n);
      RunSnoc(ops, n);
      KeepingUpStep(Run(Empty, ops[..n]), ops[n], id);
      VerbatimGrows(Emitted(ops[..n]), Emitted(ops[..from]), if ops[n].EmitOp? then [ops[n].ev] else [],
                    Run(Empty, ops[..from]).subscribers[id].tx.accepted);
    }
  }

  lemma VerbatimGrows(now: seq<MarketEvent>, then_: seq<MarketEvent>, more: seq<MarketEvent>, base: seq<MarketEvent>)
    requires then_ <= now
    ensures then_ <= now + more && (base + now[|then_|..]) + more == base + (now + more)[|then_|..]
  {
    assert (now + more)[|then_|..] == now[|then_|..] + more;
  }

  // --- late joiners

  /** The last `SubscriptionChanged` that turned the subscription on. */
  function LastActivation(evs: seq<MarketEvent>): Option<MarketEvent> {
    if evs == [] then None
    else
      match evs[|evs| - 1]
      case Control(_, _, _, SubscriptionChanged(_, _, _, true)) => Some(evs[|evs| - 1])
      case _ => LastActivation(evs[..|evs| - 1])
  }

  lemma {:induction false} CachedActivationIsTheLast(ops: seq<Op>)
    ensures Run(Empty, ops).lastChanged == LastActivation(Emitted(ops))
  {
    if ops != [] {
      var front, op := ops[..|ops| - 1], ops[|ops| - 1];
      CachedActivationIsTheLast(front);
      if op.EmitOp? {
        assert Emitted(ops)[..|Emitted(front)|] == Emitted(front);
      } else {
        assert Emitted(ops) == Emitted(front);
      }
    }
  }

  /** A late joiner with any room is told the current subscription state first,
      and nothing else that came before it. */
  lemma LateJoinerSeesTheLastActivation(ops: seq<Op>, id: SubscriberId, capacity: nat)
    ensures var s := Apply(Run(Empty, ops), JoinOp(id, capacity));
      && id in s.subscribers && s.subscribers[id].pending.None?
      && s.subscribers[id].tx.accepted ==
           match LastActivation(Emitted(ops)) case Some(ev) => if capacity >= 1 then [ev] else [] case None => []
  {
    CachedActivationIsTheLast(ops);
  }

  // --- no silent loss, one referrer

  /** `id` is attached at position `from` of the run and has been kept since. */
  predicate StaysFrom(ops: seq<Op>, id: SubscriberId, from: nat)
    requires from <= |ops|
  {
    forall n | from <= n <= |ops| ::
      && id in Run(Empty, ops[..n]).subscribers
      && (n < |ops| && ops[n].JoinOp? ==> ops[n].id != id)
  }

  ghost predicate PendingsFor(s: FanState, i: Instrument) {
    forall id | id in s.subscribers :: PendingFor(s.subscribers[id], i)
  }

  ghost predicate Concerned(evs: seq<MarketEvent>, i: Instrument) {
    forall e | e in evs && Accountable(e) :: InstrumentOf(e) == i
  }

  lemma {:induction false} RunPendingsFor(ops: seq<Op>, i: Instrument)
    requires Concerned(Emitted(ops), i)
    ensures PendingsFor(Run(Empty, ops), i)
  {
    if ops != [] {
      var front, op := ops[..|ops| - 1], ops[|ops| - 1];
      RunPendingsFor(front, i);
      if op.EmitOp? {
        assert op.ev in Emitted(ops);
      }
    }
  }

  lemma ApplyKeepsTold(s: FanState, op: Op, id: SubscriberId, i: Instrument, e: MarketEvent)
    requires id in s.subscribers && id in Apply(s, op).subscribers && PendingFor(s.subscribers[id], i)
    requires !(op.JoinOp? && op.id == id) && Accountable(e)
    requires op.EmitOp? && Accountable(op.ev) ==> InstrumentOf(op.ev) == i
    ensures Told(s.subscribers[id], e) || op == EmitOp(e) ==> Told(Apply(s, op).subscribers[id], e)
  {
    if op.EmitOp? {
      OfferLosesNothing(s.subscribers[id], op.ev, i);
    } else if Told(s.subscribers[id], e) {
      var x :| Owns(s.subscribers[id], x) && Accounts(x, e);
      assert Owns(Apply(s, op).subscribers[id], x);
    }
  }

  /** However full, slow or late-drained its channel was, a referrer that has
      been attached since position `from` has been queued, or is owed a gap
      over, every data event and gap emitted since. */
  lemma {:induction false} AttachedReferrerLosesNothingSilently(
    ops: seq<Op>, id: SubscriberId, from: nat, i: Instrument, e: MarketEvent)
    requires Concerned(Emitted(ops), i)
    requires from <= |ops| && StaysFrom(ops, id, from)
    requires Accountable(e) && exists n :: from <= n < |ops| && ops[n] == EmitOp(e)
    ensures id in Run(Empty, ops).subscribers && Told(Run(Empty, ops).subscribers[id], e)
  {
    var front, op := ops[..|ops| - 1], ops[|ops| - 1];
    assert ops[..|ops|] == ops;
    assert forall n | 0 <= n <= |front| :: front[..n] == ops[..n];
    assert id in Run(Empty, ops[..|ops|]).subscribers && id in Run(Empty, ops[..|front|]).subscribers;
    assert op.EmitOp? ==> op.ev in Emitted(ops);
    RunPendingsFor(front, i);
    if op != EmitOp(e) {
      var n :| from <= n < |ops| && ops[n] == EmitOp(e);
      assert front[n] == EmitOp(e);
      AttachedReferrerLosesNothingSilently(front, id, from, i, e);
    }
    ApplyKeepsTold(Run(Empty, front), op, id, i, e);
  }
}
