/** Connection phase, provider state and stream liveness, folded from the
    connect/disconnect controls a provider sends. */
module Connection {
  import opened Events

  datatype Phase = Pending | Up(since: Timestamp) | Down(since: Timestamp, cause: DisconnectCause)

  datatype Change = NoChange | Connected(reconnect: bool) | Disconnected

  /** What one received control tells about the connection, and when. */
  datatype Evidence = Connect(at: Timestamp) | Disconnect(at: Timestamp, why: DisconnectCause) | Other

  function EvidenceOf(ev: MarketEvent): Evidence {
    if !ev.Control? then Other
    else
      match ev.control
      case ProviderConnected(_) => Connect(ev.rxTs)
      case ProviderDisconnected(_, _, cause) => Disconnect(ev.rxTs, cause)
      case _ => Other
  }

  function Record(p: Phase, e: Evidence): (Phase, Change) {
    match (e, p)
    case (Connect(_), Up(_)) => (p, NoChange)
    case (Connect(at), _) => (Up(at), Connected(p.Down?))
    case (Disconnect(_, cause), Down(since, _)) => (Down(since, cause), NoChange)
    case (Disconnect(at, cause), _) => (Down(at, cause), Disconnected)
    case (Other, _) => (p, NoChange)
  }

  class LiveStats {
    var connection: Phase

    constructor ()
      ensures connection == Pending
    {
      connection := Pending;
    }

    method RecordConnection(ev: MarketEvent) returns (change: Change)
      modifies this
      ensures (connection, change) == Record(old(connection), EvidenceOf(ev))
    {
      var e := EvidenceOf(ev);
      change := NoChange;
      if e.Connect? && !connection.Up? {
        change := Connected(connection.Down?);
        connection := Up(e.at);
      } else if e.Disconnect? {
        if connection.Down? {
          connection := Down(connection.since, e.why);
        } else {
          connection := Down(e.at, e.why);
          change := Disconnected;
        }
      }
    }
  }

  function PhaseAfter(trace: seq<Evidence>): Phase {
    if trace == [] then Pending else Record(PhaseAfter(trace[..|trace| - 1]), trace[|trace| - 1]).0
  }

  // ----------------------------------------------------- the last maximal run

  /** Connects and disconnects only, in order. */
  function Facts(trace: seq<Evidence>): (r: seq<Evidence>)
    ensures forall n | 0 <= n < |r| :: !r[n].Other?
  {
    if trace == [] then []
    else Facts(trace[..|trace| - 1]) + if trace[|trace| - 1].Other? then [] else [trace[|trace| - 1]]
  }

  /** `from` starts the last maximal run of connects, or of disconnects. */
  predicate LastRun(facts: seq<Evidence>, from: nat) {
    && from < |facts|
    && (forall n | from <= n < |facts| :: facts[n].Connect? == facts[|facts| - 1].Connect?)
    && (from > 0 ==> facts[from - 1].Connect? != facts[|facts| - 1].Connect?)
  }

  function PhaseOfRun(facts: seq<Evidence>, from: nat): Phase
    requires from < |facts| && forall n | 0 <= n < |facts| :: !facts[n].Other?
  {
    var last := facts[|facts| - 1];
    if last.Connect? then Up(facts[from].at) else Down(facts[from].at, last.why)
  }

  lemma {:induction false} LastRunExists(facts: seq<Evidence>) returns (from: nat)
    requires facts != []
    ensures LastRun(facts, from)
  {
    from := |facts| - 1;
    while from > 0 && facts[from - 1].Connect? == facts[|facts| - 1].Connect?
      invariant from < |facts|
      invariant forall n | from <= n < |facts| :: facts[n].Connect? == facts[|facts| - 1].Connect?
    {
      from := from - 1;
    }
  }

  /** After any control trace the phase is determined by the last maximal run of
      connects or disconnects: `since` from its first control, the cause from
      its latest disconnect. */
  lemma {:induction false} PhaseIsTheLastRun(trace: seq<Evidence>, from: nat)
    requires Facts(trace) != [] ==> LastRun(Facts(trace), from)
    ensures PhaseAfter(trace) == if Facts(trace) == [] then Pending else PhaseOfRun(Facts(trace), from)
    decreases |trace|
  {
    if trace != [] {
      var front, e := trace[..|trace| - 1], trace[|trace| - 1];
      var before, facts := Facts(front), Facts(trace);
      if e.Other? || before == [] {
        assert e.Other? ==> facts == before;
        PhaseIsTheLastRun(front, from);
      } else {
        var start := LastRunExists(before);
        PhaseIsTheLastRun(front, start);
        assert forall n | 0 <= n < |before| :: facts[n] == before[n];
        if before[|before| - 1].Connect? == e.Connect? {
          RunStartIsUnique(facts, from, start);
        }
      }
    }
  }

  lemma RunStartIsUnique(facts: seq<Evidence>, a: nat, b: nat)
    requires LastRun(facts, a) && LastRun(facts, b)
    ensures a == b
  {
  }

  // ------------------------------------------------ provider-level accounting

  /** A provider's counters and sticky facts. */
  datatype Accounting = Accounting(reconnects: nat, everConnected: bool, authFailed: bool, lastError: Option<string>)

  const NewAccounting: Accounting := Accounting(0, false, false, None)

  /** What the accounting is told: a received event with the transition it
      caused, a live open that failed before any substream existed, or an error
      the controller surfaced itself. */
  datatype Note =
    | Heard(ev: MarketEvent, change: Change)
    | OpenFailure(unauthenticated: bool, text: string)
    | Surfaced(text: string)

  predicate Connects(n: Note) {
    n.Heard? && n.change.Connected?
  }

  predicate Rejects(n: Note) {
    match n
    case Heard(Control(_, _, _, ProviderDisconnected(_, _, cause)), _) => cause == Unauthenticated
    case OpenFailure(unauthenticated, _) => unauthenticated
    case _ => false
  }

  /** The error text a note carries, if any: a rejection's reason, but not that
      of any other disconnect. */
  function ErrorText(n: Note): Option<string> {
    match n
    case Heard(Control(_, _, _, ProviderDisconnected(_, reason, cause)), _) =>
      if cause == Unauthenticated then Some(reason) else None
    case Heard(Control(_, _, _, ProviderError(_, message)), _) => Some(message)
    case OpenFailure(_, text) => Some(text)
    case Surfaced(text) => Some(text)
    case _ => None
  }

  /** A rejection is recorded even when it changes no phase; a connect clears it
      only when it is a transition, and never clears the error text. */
  function Account(a: Accounting, n: Note): Accounting {
    Accounting(
      a.reconnects + (if n.Heard? && n.change == Connected(true) then 1 else 0),
      a.everConnected || Connects(n),
      Rejects(n) || (a.authFailed && !Connects(n)),
      if ErrorText(n).Some? then ErrorText(n) else a.lastError)
  }

  class ProviderAccounting {
    var reconnects: nat
    var everConnected: bool
    var authFailed: bool
    var lastError: Option<string>

    function State(): Accounting
      reads this
    {
      Accounting(reconnects, everConnected, authFailed, lastError)
    }

    constructor ()
      ensures State() == NewAccounting
    {
      reconnects, everConnected, authFailed, lastError := 0, false, false, None;
    }

    method RecordProviderControl(ev: MarketEvent, change: Change)
      modifies this
      ensures State() == Account(old(State()), Heard(ev, change))
    {
      if change.Connected? {
        everConnected := true;
        authFailed := false;
        if change.reconnect {
          reconnects := reconnects + 1;
        }
      }
      match ev {
        case Control(_, _, _, ProviderDisconnected(_, reason, cause)) =>
          if cause == Unauthenticated {
            authFailed := true;
            RecordError(reason);
          }
        case Control(_, _, _, ProviderError(_, message)) => RecordError(message);
        case _ =>
      }
    }

    method RecordError(text: string)
      modifies this`lastError
      ensures State() == Account(old(State()), Surfaced(text))
    {
      lastError := Some(text);
    }

    method RecordOpenFailure(unauthenticated: bool, text: string)
      modifies this
      ensures State() == Account(old(State()), OpenFailure(unauthenticated, text))
    {
      if unauthenticated {
        authFailed := true;
      }
      RecordError(text);
    }
  }

  function AccountAll(notes: seq<Note>): Accounting {
    if notes == [] then NewAccounting else Account(AccountAll(notes[..|notes| - 1]), notes[|notes| - 1])
  }

  predicate RejectedSinceConnect(notes: seq<Note>) {
    exists n :: 0 <= n < |notes| && Rejects(notes[n]) && forall m | n < m < |notes| :: !Connects(notes[m])
  }

  /** The sticky rejection flag is set exactly when some rejection came after the
      last connect transition, of whichever substream. */
  lemma {:induction false} AuthFailedIffRejectedSinceConnect(notes: seq<Note>)
    ensures AccountAll(notes).authFailed <==> RejectedSinceConnect(notes)
    ensures AccountAll(notes).everConnected <==> exists n :: 0 <= n < |notes| && Connects(notes[n])
  {
    if notes != [] {
      var front, last := notes[..|notes| - 1], notes[|notes| - 1];
      AuthFailedIffRejectedSinceConnect(front);
      if RejectedSinceConnect(front) && !Connects(last) {
        var n :| 0 <= n < |front| && Rejects(front[n]) && forall m | n < m < |front| :: !Connects(front[m]);
        assert Rejects(notes[n]) && forall m | n < m < |notes| :: !Connects(notes[m]);
      }
      if n :| 0 <= n < |notes| && Rejects(notes[n]) && forall m | n < m < |notes| :: !Connects(notes[m]) {
        if n < |front| {
          assert Rejects(front[n]) && forall m | n < m < |front| :: !Connects(front[m]);
          assert !Connects(notes[|front|]);
        }
      }
      if n :| 0 <= n < |front| && Connects(front[n]) {
        assert Connects(notes[n]);
      }
    }
  }

  /** Which notes leave an error text: an error, a failed open, a surfaced failure,
      and a disconnect if and only if it is a rejection. */
  lemma WhatLeavesAnErrorText(n: Note, a: Accounting)
    ensures n.OpenFailure? || n.Surfaced? ==> Account(a, n).lastError == Some(n.text)
    ensures n.Heard? && n.ev.Control? && n.ev.control.ProviderError? ==>
      Account(a, n).lastError == Some(n.ev.control.message)
    ensures n.Heard? && n.ev.Control? && n.ev.control.ProviderDisconnected? ==>
      Account(a, n).lastError == if n.ev.control.cause == Unauthenticated then Some(n.ev.control.reason) else a.lastError
    ensures n.Heard? && !(n.ev.Control? && (n.ev.control.ProviderError? || n.ev.control.ProviderDisconnected?)) ==>
      Account(a, n).lastError == a.lastError
  {
  }

  function ErrorTexts(notes: seq<Note>): seq<string> {
    if notes == [] then []
    else
      ErrorTexts(notes[..|notes| - 1])
      + match ErrorText(notes[|notes| - 1]) case Some(text) => [text] case None => []
  }

  /** The reported error is the latest text any note carried. */
  lemma {:induction false} LastErrorIsTheLatest(notes: seq<Note>)
    ensures var texts := ErrorTexts(notes);
      AccountAll(notes).lastError == if texts == [] then None else Some(texts[|texts| - 1])
  {
    if notes != [] {
      LastErrorIsTheLatest(notes[..|notes| - 1]);
    }
  }

  type StreamId = nat

  /** A provider's substreams, interleaved in receipt order. */
  datatype Arrival = Arrival(stream: StreamId, ev: MarketEvent)

  datatype Provider = Provider(phases: map<StreamId, Phase>, acct: Accounting)

  function PhaseOf(p: Provider, s: StreamId): Phase {
    if s in p.phases then p.phases[s] else Pending
  }

  function Arrive(p: Provider, a: Arrival): Provider {
    var (phase, change) := Record(PhaseOf(p, a.stream), EvidenceOf(a.ev));
    Provider(p.phases[a.stream := phase], Account(p.acct, Heard(a.ev, change)))
  }

  function ProviderAfter(trace: seq<Arrival>): Provider {
    if trace == [] then Provider(map[], NewAccounting)
    else Arrive(ProviderAfter(trace[..|trace| - 1]), trace[|trace| - 1])
  }

  function Own(s: StreamId, trace: seq<Arrival>): seq<Evidence> {
    if trace == [] then []
    else Own(s, trace[..|trace| - 1]) + if trace[|trace| - 1].stream == s then [EvidenceOf(trace[|trace| - 1].ev)] else []
  }

  lemma {:induction false} StreamsAreIndependent(trace: seq<Arrival>, s: StreamId)
    ensures PhaseOf(ProviderAfter(trace), s) == PhaseAfter(Own(s, trace))
    decreases |trace|
  {
    if trace != [] {
      StreamsAreIndependent(trace[..|trace| - 1], s);
      var own := Own(s, trace[..|trace| - 1]);
      if trace[|trace| - 1].stream == s {
        assert (own + [EvidenceOf(trace[|trace| - 1].ev)])[..|own|] == own;
      } else {
        assert own + [] == own;
      }
    }
  }

  /** A connect whose stream was last heard to disconnect. */
  predicate IsReconnect(before: seq<Arrival>, a: Arrival) {
    var facts := Facts(Own(a.stream, before));
    EvidenceOf(a.ev).Connect? && facts != [] && facts[|facts| - 1].Disconnect?
  }

  function Reconnects(trace: seq<Arrival>): nat {
    if trace == [] then 0
    else Reconnects(trace[..|trace| - 1]) + if IsReconnect(trace[..|trace| - 1], trace[|trace| - 1]) then 1 else 0
  }

  lemma DownIffLastFactDisconnects(trace: seq<Evidence>)
    ensures PhaseAfter(trace).Down? <==> Facts(trace) != [] && Facts(trace)[|Facts(trace)| - 1].Disconnect?
    ensures PhaseAfter(trace).Up? <==> Facts(trace) != [] && Facts(trace)[|Facts(trace)| - 1].Connect?
  {
    if Facts(trace) == [] {
      PhaseIsTheLastRun(trace, 0);
    } else {
      var from := LastRunExists(Facts(trace));
      PhaseIsTheLastRun(trace, from);
    }
  }

  /** The provider's reconnect counter is the total number of down-to-up
      transitions over all its substreams, however they interleave. */
  lemma {:induction false} ReconnectsAreDownToUpTransitions(trace: seq<Arrival>)
    ensures ProviderAfter(trace).acct.reconnects == Reconnects(trace)
    decreases |trace|
  {
    if trace != [] {
      var front, a := trace[..|trace| - 1], trace[|trace| - 1];
      ReconnectsAreDownToUpTransitions(front);
      StreamsAreIndependent(front, a.stream);
      DownIffLastFactDisconnects(Own(a.stream, front));
    }
  }

  // ---------------------------------------------------------- provider state

  datatype ConnectionState = StateConnected | StateUnauthenticated | StateDisconnected | StateUnknown

  predicate SomeUp(streams: seq<Phase>) {
    exists n :: 0 <= n < |streams| && streams[n].Up?
  }

  predicate SomeDown(streams: seq<Phase>) {
    exists n :: 0 <= n < |streams| && streams[n].Down?
  }

  predicate SomeRejected(streams: seq<Phase>) {
    exists n :: 0 <= n < |streams| && streams[n].Down? && streams[n].cause == Unauthenticated
  }

  function StateOf(streams: seq<Phase>, authFailed: bool, everConnected: bool): ConnectionState {
    if SomeUp(streams) then StateConnected
    else if SomeRejected(streams) || (streams == [] && authFailed) then StateUnauthenticated
    else if SomeDown(streams) || (streams == [] && everConnected) then StateDisconnected
    else StateUnknown
  }

  method ConnectionStateOf(streams: seq<Phase>, authFailed: bool, everConnected: bool) returns (r: ConnectionState)
    ensures r == StateOf(streams, authFailed, everConnected)
  {
    var any, up, down, rejected := false, false, false, false;
    for n := 0 to |streams|
      invariant any <==> n > 0
      invariant up <==> SomeUp(streams[..n])
      invariant down <==> SomeDown(streams[..n])
      invariant rejected <==> SomeRejected(streams[..n])
    {
      assert streams[..n + 1] == streams[..n] + [streams[n]];
      any := true;
      match streams[n]
      case Up(_) => up := true;
      case Down(_, cause) =>
        down := true;
        rejected := rejected || cause == Unauthenticated;
      case Pending =>
      assert streams[..n + 1][n] == streams[n];
    }
    assert streams[..|streams|] == streams;
    if up {
      r := StateConnected;
    } else if rejected || (!any && authFailed) {
      r := StateUnauthenticated;
    } else if down || (!any && everConnected) {
      r := StateDisconnected;
    } else {
      r := StateUnknown;
    }
  }

  /** What one substream says about its provider. */
  function ReadingOf(p: Phase): ConnectionState {
    match p
    case Up(_) => StateConnected
    case Down(_, cause) => if cause == Unauthenticated then StateUnauthenticated else StateDisconnected
    case Pending => StateUnknown
  }

  /** Which evidence outweighs which. */
  function Weight(s: ConnectionState): nat {
    match s
    case StateConnected => 3
    case StateUnauthenticated => 2
    case StateDisconnected => 1
    case StateUnknown => 0
  }

  /** A provider with substreams reads as the weightiest of them says; without
      any, its sticky facts decide, the last rejection first. */
  lemma ProviderReadsAsItsWeightiestStream(streams: seq<Phase>, authFailed: bool, everConnected: bool)
    ensures streams != [] ==> exists n :: 0 <= n < |streams| && ReadingOf(streams[n]) == StateOf(streams, authFailed, everConnected)
    ensures forall n | 0 <= n < |streams| :: Weight(ReadingOf(streams[n])) <= Weight(StateOf(streams, authFailed, everConnected))
    ensures StateOf([], true, everConnected) == StateUnauthenticated
    ensures StateOf([], false, true) == StateDisconnected && StateOf([], false, false) == StateUnknown
  {
    var s := StateOf(streams, authFailed, everConnected);
    forall n | 0 <= n < |streams|
      ensures Weight(ReadingOf(streams[n])) <= Weight(s)
    {
    }
    if streams != [] {
      if SomeUp(streams) {
        var n :| 0 <= n < |streams| && streams[n].Up?;
        assert ReadingOf(streams[n]) == s;
      } else if SomeRejected(streams) {
        var n :| 0 <= n < |streams| && streams[n].Down? && streams[n].cause == Unauthenticated;
        assert ReadingOf(streams[n]) == s;
      } else if SomeDown(streams) {
        var n :| 0 <= n < |streams| && streams[n].Down?;
        assert ReadingOf(streams[n]) == s;
      } else {
        assert streams[0] == Pending && ReadingOf(streams[0]) == s;
      }
    }
  }

  datatype ProviderState = DisabledState | RejectedState | IdleState | ConnectedState | DisconnectedState | ConnectingState

  /** What an operator reads, in precedence order. */
  function ProviderReads(enabled: bool, active: nat, state: ConnectionState): ProviderState {
    if !enabled then DisabledState
    else if state == StateUnauthenticated then RejectedState
    else if active == 0 then IdleState
    else
      match state
      case StateConnected => ConnectedState
      case StateDisconnected => DisconnectedState
      case StateUnauthenticated => RejectedState
      case StateUnknown => ConnectingState
  }

  /** Every reading, and when it is given: disabled wins, then a rejection, then
      having nothing requested, then what the substreams say. */
  lemma ProviderReadings(enabled: bool, active: nat, state: ConnectionState)
    ensures var reading, asked := ProviderReads(enabled, active, state), enabled && state != StateUnauthenticated && active > 0;
      && (reading == DisabledState <==> !enabled)
      && (reading == RejectedState <==> enabled && state == StateUnauthenticated)
      && (reading == IdleState <==> enabled && state != StateUnauthenticated && active == 0)
      && (reading == ConnectedState <==> asked && state == StateConnected)
      && (reading == DisconnectedState <==> asked && state == StateDisconnected)
      && (reading == ConnectingState <==> asked && state == StateUnknown)
  {
  }

  /** The provider state does not depend on the order its substreams are sampled
      in, and an enabled provider with subscriptions reads connected exactly
      when one of them is up. */
  lemma ProviderStateIsOrderIndependent(
    a: seq<Phase>, b: seq<Phase>, authFailed: bool, everConnected: bool, enabled: bool, active: nat)
    requires multiset(a) == multiset(b)
    ensures StateOf(a, authFailed, everConnected) == StateOf(b, authFailed, everConnected)
    ensures ProviderReads(enabled, active, StateOf(a, authFailed, everConnected)) == ConnectedState
      <==> enabled && active > 0 && exists p :: p in a && p.Up?
  {
    assert forall p :: p in a <==> p in multiset(a);
    assert forall p :: p in b <==> p in multiset(b);
    assert forall n | 0 <= n < |a| :: a[n] in b;
    assert forall n | 0 <= n < |b| :: b[n] in a;
    assert |a| == |multiset(a)| && |b| == |multiset(b)|;
  }

  // ---------------------------------------------------------------- liveness

  datatype Liveness = Backfilling | Stale(since: Timestamp) | AwaitingData | Quiet(quietSince: Timestamp) | Gapped | Live

  datatype Snapshot = Snapshot(
    connection: Phase, backfilling: bool, lastRx: Option<Timestamp>, lastGapRx: Option<Timestamp>)

  function FaultSince(p: Phase): Option<Timestamp> {
    if p.Down? && p.cause != Disabled then Some(p.since) else None
  }

  function LivenessOf(s: Snapshot, now: Timestamp, quietAfter: int): Liveness {
    if s.backfilling then Backfilling
    else if FaultSince(s.connection).Some? then Stale(FaultSince(s.connection).value)
    else if s.lastRx.None? then AwaitingData
    else if now - s.lastRx.value > quietAfter then Quiet(s.lastRx.value)
    else if s.lastGapRx.Some? && now - s.lastGapRx.value <= quietAfter then Gapped
    else Live
  }

  /** From the raw trace to what an operator reads: a stream is stale exactly
      when it is not backfilling and the last connection control received was a
      disconnect for a reason other than being disabled; and then it is stale
      since the first disconnect of that outage. */
  lemma StaleIffDownOnAFault(trace: seq<Evidence>, s: Snapshot, now: Timestamp, quietAfter: int, from: nat)
    requires s.connection == PhaseAfter(trace) && (Facts(trace) != [] ==> LastRun(Facts(trace), from))
    ensures var facts := Facts(trace);
      var stale := !s.backfilling && facts != [] && facts[|facts| - 1].Disconnect? && facts[|facts| - 1].why != Disabled;
      && (LivenessOf(s, now, quietAfter).Stale? <==> stale)
      && (stale ==> LivenessOf(s, now, quietAfter) == Stale(facts[from].at))
  {
    PhaseIsTheLastRun(trace, from);
  }

  /** The other readings: a healthy stream awaits data until it has received some,
      is quiet exactly when the last receipt is older than the threshold, and
      otherwise gapped exactly when a gap was received within it, else live. */
  lemma HealthyReadings(s: Snapshot, now: Timestamp, quietAfter: int)
    ensures LivenessOf(s, now, quietAfter) == Backfilling <==> s.backfilling
    ensures !s.backfilling && FaultSince(s.connection).None? ==>
      var reading := LivenessOf(s, now, quietAfter);
      && !reading.Stale?
      && (reading == AwaitingData <==> s.lastRx.None?)
      && (s.lastRx.Some? ==>
            var age := now - s.lastRx.value;
            && (reading.Quiet? <==> age > quietAfter)
            && (reading.Quiet? ==> reading.quietSince == s.lastRx.value)
            && (reading == Gapped <==> age <= quietAfter && s.lastGapRx.Some? && now - s.lastGapRx.value <= quietAfter)
            && (reading == Live <==> age <= quietAfter && (s.lastGapRx.None? || now - s.lastGapRx.value > quietAfter)))
  {
  }
}
